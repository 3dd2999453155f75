/** What every interleaving of each version of the key generations does and ends with, in terms of
    the joint secret alone. */
module KeyTheorems {
  import opened Rings
  import opened KeyAlgebra
  import opened Network
  import opened Phases
  import Patterns
  import opened JointKeys
  import opened JointRuns

  /** s_1 + ... + s_i, and the joint secret. */
  function Upto<T>(c: Setup<T>, i: nat): T { SumTo(c.ring, c.secret, i) }
  function Joint<T>(c: Setup<T>): T { Upto(c, c.n) }

  /** The keys of the joint secret: public key, multiplication key (S * S under S), summation keys. */
  ghost predicate HasPub<T>(c: Setup<T>, k: Node<T>) { k.finalPub == KeyAlgebra.Val.Pub(Joint(c)) }
  ghost predicate HasMult<T>(c: Setup<T>, k: Node<T>) {
    k.evalMultFinal == MixKey(Joint(c), c.ring.mul(Joint(c), Joint(c)))
  }
  ghost predicate HasSum<T>(c: Setup<T>, k: Node<T>) {
    k.evalSumFinal == SumKey(1, Joint(c), AllTurned(c.rotate, Joint(c)))
  }

  ghost predicate Lawful<T(!new)>(c: Setup<T>) { Sound(c) && Commutative(c.ring) && Additive(c.ring, c.rotate) }

  // ---- the multiplication key with broadcast, alone ----

  /** What party a may send to party b: forward, the sum of its predecessors' secrets and its own;
      backward, the sum of its own and its successors' secrets times S; the last party tells all
      the whole evaluation key and the first the final key. */
  ghost predicate MultTraffic<T>(c: Setup<T>, a: nat, b: nat, m: Msg<Val<T>>) {
    || (b == a + 1 && m == Msg("evalmultkey", EvalKey(1, Upto(c, a), Upto(c, a))))
    || (a == c.n && m == Msg("evalmultkey", EvalKey(1, Joint(c), Joint(c))))
    || (b + 1 == a && m == Msg("evalmixmultkey", MixKey(Joint(c), c.ring.mul(SumFrom(c.ring, c.secret, a, c.n),
        Joint(c)))))
    || (a == 1 && m == Msg("evalmixmultkey", MixKey(Joint(c), c.ring.mul(Joint(c), Joint(c)))))
  }

  lemma {:induction false} PassSends<V>(n: nat, up: bool, lo: nat, me: nat, kind: string, val: nat -> V, x: Ranked<V>)
    requires 1 <= me <= n && x in Patterns.PassPlan(n, up, lo, me, kind, val) && x.ev.Sent?
    ensures Patterns.Turn(n, up, me) < n && x.ev == Sent(Patterns.Next(up, me), Msg(kind, val(me)))
  {}

  lemma {:induction false} BroadcastSends<V>(src: nat, order: seq<nat>, lo: nat, me: nat, m: Msg<V>, x: Ranked<V>)
    requires x in Patterns.BroadcastPlan(src, order, lo, me, m) && x.ev.Sent?
    ensures me == src && x.ev.to in order && x.ev.msg == m
  {
    if me == src { SendAllSends(order, m, lo + 1, x); }
  }

  lemma {:induction false} ForwardTraffic<T(!new)>(c: Setup<T>, a: nat, x: Ranked<Val<T>>)
    requires 1 <= a <= c.n && x.ev.Sent?
    requires x in EvalDownPlan(c, 0)(a) || x in AllCastPlan(c, c.n + 1)(a)
    ensures MultTraffic(c, a, x.ev.to, x.ev.msg)
  {
    ForwardKeyIs(c.ring, c.secret, a);
    if x in EvalDownPlan(c, 0)(a) {
      PassSends(c.n, false, 0, a, "evalmultkey", FwdOf(c), x);
    } else {
      BroadcastSends(c.n, c.order(c.n), c.n + 1, a, Msg("evalmultkey", FwdOf(c)(c.n)), x);
    }
  }

  lemma {:induction false} BackwardTraffic<T(!new)>(c: Setup<T>, a: nat, x: Ranked<Val<T>>)
    requires 1 <= a <= c.n && x.ev.Sent? && Commutative(c.ring) && x in MixUpPlan(c, c.n + 4)(a)
    ensures MultTraffic(c, a, x.ev.to, x.ev.msg)
  {
    hide Commutative, Patterns.PassPlan, BackwardKey, SumFrom, SumTo;
    BackwardKeyIs(c.ring, c.secret, a, c.n);
    PassSends(c.n, true, c.n + 4, a, "evalmixmultkey", BwdOf(c), x);
  }

  lemma {:induction false} FinalTraffic<T(!new)>(c: Setup<T>, a: nat, x: Ranked<Val<T>>)
    requires 1 <= a <= c.n && x.ev.Sent? && Commutative(c.ring) && x in MultCastPlan(c, 2 * c.n + 5)(a)
    ensures MultTraffic(c, a, x.ev.to, x.ev.msg)
  {
    hide Commutative, Patterns.BroadcastPlan, BackwardKey, SumTo;
    FinalMultKeyIs(c.ring, c.secret, c.n);
    BroadcastSends(1, c.order(1), 2 * c.n + 5, a, Msg("evalmixmultkey", BwdOf(c)(1)), x);
  }

  lemma {:induction false} MultPlanSends<T(!new)>(c: Setup<T>, a: nat, x: Ranked<Val<T>>)
    requires Commutative(c.ring) && 1 <= a <= c.n && x in MultGenPlan(c, 0)(a) && x.ev.Sent?
    ensures MultTraffic(c, a, x.ev.to, x.ev.msg)
  {
    hide MultTraffic, EvalDownPlan, AllCastPlan, MixUpPlan, MultCastPlan, Commutative;
    if x in EvalDownPlan(c, 0)(a) || x in AllCastPlan(c, c.n + 1)(a) {
      ForwardTraffic(c, a, x);
    } else if x in MixUpPlan(c, c.n + 4)(a) {
      BackwardTraffic(c, a, x);
    } else {
      FinalTraffic(c, a, x);
    }
  }

  /** Every interleaving of the multiplication key generation: it goes well, every message under way
      carries the partial sum its sender stands for, and at the end all hold S * S under S. */
  lemma {:induction false} MultGenEveryRun<T(!new)>(c: Setup<T>, entry: Cell -> Val<T>, init: Nodes<T>, who: seq<nat>)
    requires Sound(c) && Commutative(c.ring) && CanRun(Start(c.n, MultGen(c), init), who)
    ensures var net := Run(Start(c.n, MultGen(c), init), who);
            && GoesWell(c.n, Start(c.n, MultGen(c), init), net, |who|)
            && (forall a: nat, b: nat, m | 1 <= a <= c.n && m in Pipe(net, a, b) :: MultTraffic(c, a, b, m))
            && (Finished(c.n, net) ==> forall p: nat | 1 <= p <= c.n :: HasMult(c, net.party[p].st))
  {
    hide Phase, MultGen, MultGenPlan, GoesWell, MultTraffic, HasMult, AfterMult, Commutative;
    MultGenPhase(c, entry, 0, init);
    EveryPhaseRun(c.n, entry, 2 * c.n + 8, {}, MultGen(c), MultGenPlan(c, 0), init, AfterMult(c, init), who);
    forall p: nat ensures HasMult(c, AfterMult(c, init)(p)) {
      MultIs(c, init, p);
    }
    var net := Run(Start(c.n, MultGen(c), init), who);
    forall a: nat, b: nat, m | 1 <= a <= c.n && m in Pipe(net, a, b)
      ensures MultTraffic(c, a, b, m)
    {
      assert Planned(MultGenPlan(c, 0)(a), b, m);
      var x :| x in MultGenPlan(c, 0)(a) && x.ev == Sent(b, m);
      MultPlanSends(c, a, x);
    }
  }

  // ---- the relayed version, all three keys ----

  function KeyRelay<T(==)>(c: Setup<T>): nat -> Code<T> { Then(Then(PubRelay(c), MultRelay(c)), SumRelay(c)) }

  function AfterKeys<T(==)>(c: Setup<T>, pre: Nodes<T>): Nodes<T> { AfterSum(c, AfterMult(c, AfterPub(c, pre))) }

  lemma {:induction false} KeyRelayPhase<T>(c: Setup<T>, entry: Cell -> Val<T>, pre: Nodes<T>)
    requires 2 <= c.n
    ensures Phase(c.n, entry, 0, 9 * c.n + 9, {}, KeyRelay(c),
            Then(Then(PubRelayPlan(c, 0), MultRelayPlan(c, 2 * c.n + 2)), SumRelayPlan(c, 6 * c.n + 6)), pre,
            AfterKeys(c, pre))
  {
    hide Phase, PubRelay, PubRelayPlan, MultRelay, MultRelayPlan, SumRelay, SumRelayPlan, AfterPub, AfterMult, AfterSum;
    PubRelayPhase(c, entry, 0, pre);
    MultRelayPhase(c, entry, 2 * c.n + 2, AfterPub(c, pre));
    SumRelayPhase(c, entry, 6 * c.n + 6, AfterMult(c, AfterPub(c, pre)));
    PhaseThen(c.n, entry, 0, 2 * c.n + 2, 6 * c.n + 6, {}, {}, {}, PubRelay(c), PubRelayPlan(c, 0), pre,
        AfterPub(c, pre), MultRelay(c), MultRelayPlan(c, 2 * c.n + 2), AfterMult(c, AfterPub(c, pre)));
    PhaseThen(c.n, entry, 0, 6 * c.n + 6, 9 * c.n + 9, {}, {}, {}, Then(PubRelay(c), MultRelay(c)),
        Then(PubRelayPlan(c, 0), MultRelayPlan(c, 2 * c.n + 2)), pre, AfterMult(c, AfterPub(c, pre)), SumRelay(c),
        SumRelayPlan(c, 6 * c.n + 6), AfterKeys(c, pre));
  }

  lemma {:induction false} PubIs<T(!new)>(c: Setup<T>, pre: Nodes<T>, p: nat)
    requires 1 <= c.n
    ensures HasPub(c, AfterPub(c, pre)(p))
  {
    JointPubIs(c.ring, c.secret, c.n);
    assert AfterPub(c, pre)(p).finalPub == PubOf(c)(c.n);
  }

  lemma {:induction false} MultIs<T(!new)>(c: Setup<T>, pre: Nodes<T>, p: nat)
    requires 1 <= c.n && Commutative(c.ring)
    ensures HasMult(c, AfterMult(c, pre)(p)) && AfterMult(c, pre)(p).finalPub == pre(p).finalPub
  {
    FinalMultKeyIs(c.ring, c.secret, c.n);
    assert AfterMult(c, pre)(p).evalMultFinal == BwdOf(c)(1);
    assert WithAll(c, pre)(p).finalPub == WithEval(c, pre)(p).finalPub == pre(p).finalPub;
    assert AfterMult(c, pre)(p).finalPub == WithMix(c, pre)(p).finalPub == WithAll(c, pre)(p).finalPub;
  }

  lemma {:induction false} SumIs<T(!new)>(c: Setup<T>, pre: Nodes<T>, p: nat)
    requires 1 <= c.n && Additive(c.ring, c.rotate)
    ensures HasSum(c, AfterSum(c, pre)(p))
    ensures AfterSum(c, pre)(p).finalPub == pre(p).finalPub && AfterSum(c, pre)(p).evalMultFinal == pre(p).evalMultFinal
  {
    JointSumKeyIs(c.ring, c.rotate, c.secret, c.n);
    assert AfterSum(c, pre)(p) == WithSum(c, pre)(p).(evalSumFinal := Sum1Of(c)(c.n));
    assert WithSum(c, pre)(p) == pre(p).(sumKey0 := Sum0Of(c)(p), sumKey1 := Sum1Of(c)(p));
  }

  lemma {:induction false} KeysAre<T(!new)>(c: Setup<T>, pre: Nodes<T>, p: nat)
    requires Lawful(c)
    ensures var k := AfterKeys(c, pre)(p); HasPub(c, k) && HasMult(c, k) && HasSum(c, k)
  {
    hide AfterPub, AfterMult, AfterSum, Commutative, Additive, SumTo;
    PubIs(c, pre, p);
    MultIs(c, AfterPub(c, pre), p);
    SumIs(c, AfterMult(c, AfterPub(c, pre)), p);
  }

  /** Every interleaving of the relayed key generations goes well and ends with every party holding
      the three keys of the joint secret. */
  lemma {:induction false} KeyRelayEveryRun<T(!new)>(c: Setup<T>, entry: Cell -> Val<T>, init: Nodes<T>, who: seq<nat>)
    requires Lawful(c) && CanRun(Start(c.n, KeyRelay(c), init), who)
    ensures var net := Run(Start(c.n, KeyRelay(c), init), who);
            && GoesWell(c.n, Start(c.n, KeyRelay(c), init), net, |who|)
            && (Finished(c.n, net) ==> forall p: nat | 1 <= p <= c.n ::
                  HasPub(c, net.party[p].st) && HasMult(c, net.party[p].st) && HasSum(c, net.party[p].st))
  {
    hide Phase, KeyRelay, PubRelayPlan, MultRelayPlan, SumRelayPlan, GoesWell, AfterKeys, HasPub, HasMult, HasSum,
        Commutative, Additive;
    KeyRelayPhase(c, entry, init);
    EveryPhaseRun(c.n, entry, 9 * c.n + 9, {}, KeyRelay(c),
        Then(Then(PubRelayPlan(c, 0), MultRelayPlan(c, 2 * c.n + 2)), SumRelayPlan(c, 6 * c.n + 6)), init,
        AfterKeys(c, init), who);
    forall p: nat ensures var k := AfterKeys(c, init)(p); HasPub(c, k) && HasMult(c, k) && HasSum(c, k) {
      KeysAre(c, init, p);
    }
  }

  // ---- the polling version, by operation ----

  datatype Operation = Multiply | Add | VectorSum

  function KeyPoll<T(==)>(c: Setup<T>, op: Operation): nat -> Code<T> {
    match op
    case Multiply => Then(PubPoll(c), MultPoll(c))
    case Add => PubPoll(c)
    case VectorSum => Then(PubPoll(c), SumPoll(c))
  }

  function KeyPollPlan<T(==)>(c: Setup<T>, op: Operation): nat -> Plan<T> {
    match op
    case Multiply => Then(PollPlanOf(c, false, 0, PublicKeys), MultPollPlan(c, c.n + 2))
    case Add => PollPlanOf(c, false, 0, PublicKeys)
    case VectorSum => Then(PollPlanOf(c, false, 0, PublicKeys), Poll2PlanOf(c, c.n + 2))
  }

  function AfterOp<T(==)>(c: Setup<T>, op: Operation, pre: Nodes<T>): Nodes<T> {
    match op
    case Multiply => AfterMult(c, AfterPub(c, pre))
    case Add => AfterPub(c, pre)
    case VectorSum => AfterSum(c, AfterPub(c, pre))
  }

  lemma {:induction false} LaterPhase<L, V>(n: nat, entry: Cell -> V, lo: nat, hi: nat, hi': nat, done: set<nat>,
      code: nat -> seq<Instr<L, V>>, plan: nat -> seq<Ranked<V>>, pre: nat -> L, post: nat -> L)
    requires Phase(n, entry, lo, hi, done, code, plan, pre, post) && hi <= hi'
    ensures Phase(n, entry, lo, hi', done, code, plan, pre, post)
  {
    forall p: nat | 1 <= p <= n ensures PartyPhase(n, entry, lo, hi', code(p), plan(p), pre(p), post(p)) {
      assert PartyPhase(n, entry, lo, hi, code(p), plan(p), pre(p), post(p));
    }
  }

  lemma {:induction false} KeyPollPhase<T>(c: Setup<T>, op: Operation, pre: Nodes<T>)
    requires 2 <= c.n
    ensures Phase(c.n, TableOf(c), 0, 3 * c.n + 6, {}, KeyPoll(c, op), KeyPollPlan(c, op), pre, AfterOp(c, op, pre))
  {
    hide Phase, PubPoll, MultPoll, MultPollPlan, SumPoll, Poll2PlanOf, PollPlanOf, AfterPub, AfterMult, AfterSum,
        TableOf;
    PubPollPhase(c, 0, pre);
    match op
    case Multiply =>
      MultPollPhase(c, c.n + 2, AfterPub(c, pre));
      PhaseThen(c.n, TableOf(c), 0, c.n + 2, 3 * c.n + 6, {}, {}, {}, PubPoll(c), PollPlanOf(c, false, 0, PublicKeys),
          pre, AfterPub(c, pre), MultPoll(c), MultPollPlan(c, c.n + 2), AfterOp(c, op, pre));
    case Add =>
      LaterPhase(c.n, TableOf(c), 0, c.n + 2, 3 * c.n + 6, {}, PubPoll(c), PollPlanOf(c, false, 0, PublicKeys), pre,
          AfterPub(c, pre));
    case VectorSum =>
      SumPollPhase(c, c.n + 2, AfterPub(c, pre));
      PhaseThen(c.n, TableOf(c), 0, c.n + 2, 3 * c.n + 5, {}, {}, {}, PubPoll(c), PollPlanOf(c, false, 0, PublicKeys),
          pre, AfterPub(c, pre), SumPoll(c), Poll2PlanOf(c, c.n + 2), AfterOp(c, op, pre));
      LaterPhase(c.n, TableOf(c), 0, 3 * c.n + 5, 3 * c.n + 6, {}, KeyPoll(c, op), KeyPollPlan(c, op), pre,
          AfterOp(c, op, pre));
  }

  ghost predicate HasKeysFor<T>(c: Setup<T>, op: Operation, k: Node<T>) {
    HasPub(c, k) && (op == Multiply ==> HasMult(c, k)) && (op == VectorSum ==> HasSum(c, k))
  }

  lemma {:induction false} KeysForOp<T(!new)>(c: Setup<T>, op: Operation, pre: Nodes<T>, p: nat)
    requires Lawful(c)
    ensures HasKeysFor(c, op, AfterOp(c, op, pre)(p))
  {
    hide AfterPub, AfterMult, AfterSum, Commutative, Additive, SumTo;
    PubIs(c, pre, p);
    match op
    case Multiply => MultIs(c, AfterPub(c, pre), p);
    case Add =>
    case VectorSum => SumIs(c, AfterPub(c, pre), p);
  }

  /** In whatever order the clients poll and post, no client ever waits for ever, every entry of the
      server's tables is the centralised one, and all clients end with the keys of the joint secret. */
  lemma {:induction false} KeyPollEveryRun<T(!new)>(c: Setup<T>, op: Operation, init: Nodes<T>, who: seq<nat>)
    requires Lawful(c) && CanRun(Start(c.n, KeyPoll(c, op), init), who)
    ensures var net := Run(Start(c.n, KeyPoll(c, op), init), who);
            && GoesWell(c.n, Start(c.n, KeyPoll(c, op), init), net, |who|)
            && (forall cell | cell in net.table :: net.table[cell] == TableOf(c)(cell))
            && (Finished(c.n, net) ==> forall p: nat | 1 <= p <= c.n :: HasKeysFor(c, op, net.party[p].st))
  {
    hide Phase, KeyPoll, KeyPollPlan, GoesWell, TableOf, AfterOp, HasKeysFor;
    KeyPollPhase(c, op, init);
    EveryPhaseRun(c.n, TableOf(c), 3 * c.n + 6, {}, KeyPoll(c, op), KeyPollPlan(c, op), init, AfterOp(c, op, init),
        who);
    forall p: nat ensures HasKeysFor(c, op, AfterOp(c, op, init)(p)) {
      KeysForOp(c, op, init, p);
    }
  }
}

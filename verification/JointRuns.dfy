/** Whole key generations: the stages one after another, and what every interleaving of them ends with. */
module JointRuns {
  import opened KeyAlgebra
  import opened Network
  import opened Phases
  import opened Patterns
  import opened JointKeys

  // ---- the polling clients ----

  /** What the server's tables of keys hold once everything is posted. */
  function TableOf<T(==)>(c: Setup<T>): Cell -> Val<T> {
    (cell: Cell) =>
      match cell.table
      case PublicKeys => PubOf(c)(cell.id)
      case EvalMultKeys => FwdOf(c)(cell.id)
      case EvalMixMultKeys => BwdOf(c)(cell.id)
      case EvalSumKeys0 => Sum0Of(c)(cell.id)
      case EvalSumKeys1 => Sum1Of(c)(cell.id)
      case _ => Garbage
  }

  function PubPoll<T>(c: Setup<T>): nat -> Code<T> {
    (p: nat) => PollCode(c.n, false, p, PublicKeys, GenPub(c), JoinPub(c), GetPub(), KeepPub(), SetPub())
  }
  function EvalPoll<T>(c: Setup<T>): nat -> Code<T> {
    (p: nat) => PollCode(c.n, false, p, EvalMultKeys, GenEval(c), JoinEval(c), GetEval(), KeepEval(), SetAll())
  }
  function MixPoll<T(==)>(c: Setup<T>): nat -> Code<T> {
    (p: nat) => PollCode(c.n, true, p, EvalMixMultKeys, GenMix(c), JoinMix(c), GetMix(), KeepMix(), SetMult())
  }
  function SumPoll<T>(c: Setup<T>): nat -> Code<T> {
    (p: nat) => Poll2Code(c.n, p, EvalSumKeys0, EvalSumKeys1, GenSum(c), HoldSum(), JoinSum(c), GetSum0(), GetSum1(),
        KeepSum(), SetSum())
  }
  function PollPlanOf<T(==)>(c: Setup<T>, up: bool, lo: nat, table: Table): nat -> Plan<T> {
    (p: nat) => PollPlan(c.n, up, lo, p, table, TableOf(c))
  }
  function Poll2PlanOf<T(==)>(c: Setup<T>, lo: nat): nat -> Plan<T> {
    (p: nat) => Poll2In(lo, p, EvalSumKeys0, EvalSumKeys1, TableOf(c)) + Poll2Out(c.n, lo, p, EvalSumKeys0,
        EvalSumKeys1, TableOf(c))
  }

  lemma {:induction false} PubPollStep<T>(c: Setup<T>, p: nat, pre: Nodes<T>)
    requires 1 <= p <= c.n
    ensures PollStates(c.n, TableOf(c), false, p, PublicKeys, GenPub(c), JoinPub(c), GetPub(), KeepPub(), SetPub(),
            pre(p), WithPub(c, pre)(p), AfterPub(c, pre)(p))
  {
    hide ForwardKey, BackwardKey, OwnSumKey, JointSumKey;
  }

  lemma {:induction false} PubPollPhase<T>(c: Setup<T>, lo: nat, pre: Nodes<T>)
    requires 2 <= c.n
    ensures Phase(c.n, TableOf(c), lo, lo + c.n + 2, {}, PubPoll(c), PollPlanOf(c, false, lo, PublicKeys), pre,
            AfterPub(c, pre))
  {
    hide Phase, PollStates, PollCode, PollPlan, TableOf, WithPub, AfterPub, GenPub, JoinPub;
    forall p: nat | 1 <= p <= c.n
      ensures PollStates(c.n, TableOf(c), false, p, PublicKeys, GenPub(c), JoinPub(c), GetPub(), KeepPub(), SetPub(),
              pre(p), WithPub(c, pre)(p), AfterPub(c, pre)(p))
    {
      PubPollStep(c, p, pre);
    }
    PollPhase(c.n, TableOf(c), false, lo, PublicKeys, GenPub(c), JoinPub(c), GetPub(), KeepPub(), SetPub(), pre,
        WithPub(c, pre), AfterPub(c, pre), PubPoll(c), PollPlanOf(c, false, lo, PublicKeys));
  }

  lemma {:induction false} EvalPollStep<T>(c: Setup<T>, p: nat, pre: Nodes<T>)
    requires 1 <= p <= c.n
    ensures PollStates(c.n, TableOf(c), false, p, EvalMultKeys, GenEval(c), JoinEval(c), GetEval(), KeepEval(),
            SetAll(), pre(p), WithEval(c, pre)(p), WithAll(c, pre)(p))
  {
    EvalStep(c, p, pre(p));
  }

  lemma {:induction false} EvalPollPhase<T>(c: Setup<T>, lo: nat, pre: Nodes<T>)
    requires 2 <= c.n
    ensures Phase(c.n, TableOf(c), lo, lo + c.n + 2, {}, EvalPoll(c), PollPlanOf(c, false, lo, EvalMultKeys), pre,
            WithAll(c, pre))
  {
    hide Phase, PollStates, PollCode, PollPlan, TableOf, WithEval, WithAll, GenEval, JoinEval;
    forall p: nat | 1 <= p <= c.n
      ensures PollStates(c.n, TableOf(c), false, p, EvalMultKeys, GenEval(c), JoinEval(c), GetEval(), KeepEval(),
              SetAll(), pre(p), WithEval(c, pre)(p), WithAll(c, pre)(p))
    {
      EvalPollStep(c, p, pre);
    }
    PollPhase(c.n, TableOf(c), false, lo, EvalMultKeys, GenEval(c), JoinEval(c), GetEval(), KeepEval(), SetAll(), pre,
        WithEval(c, pre), WithAll(c, pre), EvalPoll(c), PollPlanOf(c, false, lo, EvalMultKeys));
  }

  lemma {:induction false} MixPollStep<T>(c: Setup<T>, p: nat, pre: Nodes<T>)
    requires 1 <= p <= c.n
    ensures PollStates(c.n, TableOf(c), true, p, EvalMixMultKeys, GenMix(c), JoinMix(c), GetMix(), KeepMix(), SetMult(),
            WithAll(c, pre)(p), WithMix(c, pre)(p), AfterMult(c, pre)(p))
  {
    MixStep(c, p, WithAll(c, pre)(p));
  }

  lemma {:induction false} MixPollPhase<T>(c: Setup<T>, lo: nat, pre: Nodes<T>)
    requires 2 <= c.n
    ensures Phase(c.n, TableOf(c), lo, lo + c.n + 2, {}, MixPoll(c), PollPlanOf(c, true, lo, EvalMixMultKeys),
            WithAll(c, pre), AfterMult(c, pre))
  {
    hide Phase, PollStates, PollCode, PollPlan, TableOf, WithAll, WithMix, AfterMult, GenMix, JoinMix;
    forall p: nat | 1 <= p <= c.n
      ensures PollStates(c.n, TableOf(c), true, p, EvalMixMultKeys, GenMix(c), JoinMix(c), GetMix(), KeepMix(),
              SetMult(), WithAll(c, pre)(p), WithMix(c, pre)(p), AfterMult(c, pre)(p))
    {
      MixPollStep(c, p, pre);
    }
    PollPhase(c.n, TableOf(c), true, lo, EvalMixMultKeys, GenMix(c), JoinMix(c), GetMix(), KeepMix(), SetMult(),
        WithAll(c, pre), WithMix(c, pre), AfterMult(c, pre), MixPoll(c), PollPlanOf(c, true, lo, EvalMixMultKeys));
  }

  lemma {:induction false} SumPollStep<T>(c: Setup<T>, p: nat, pre: Nodes<T>)
    requires 1 <= p <= c.n
    ensures Poll2States(c.n, TableOf(c), p, EvalSumKeys0, EvalSumKeys1, GenSum(c), HoldSum(), JoinSum(c), GetSum0(),
            GetSum1(), KeepSum(), SetSum(), pre(p), WithSum(c, pre)(p), AfterSum(c, pre)(p))
  {
    hide ForwardKey, BackwardKey, JointPub;
    if 1 < p {
      assert Sum0Of(c)(p) == MultiEvalSumKeyGen(c.rotate, Sum0Of(c)(p - 1), c.secret(p));
      assert Sum1Of(c)(p) == MultiAddEvalSumKeys(c.ring, Sum1Of(c)(p - 1), Sum0Of(c)(p));
    }
  }

  lemma {:induction false} SumPollPhase<T>(c: Setup<T>, lo: nat, pre: Nodes<T>)
    requires 2 <= c.n
    ensures Phase(c.n, TableOf(c), lo, lo + 2 * c.n + 3, {}, SumPoll(c), Poll2PlanOf(c, lo), pre, AfterSum(c, pre))
  {
    hide Phase, Poll2States, Poll2Code, Poll2In, Poll2Out, TableOf, WithSum, AfterSum, GenSum, JoinSum;
    forall p: nat | 1 <= p <= c.n
      ensures Poll2States(c.n, TableOf(c), p, EvalSumKeys0, EvalSumKeys1, GenSum(c), HoldSum(), JoinSum(c), GetSum0(),
              GetSum1(), KeepSum(), SetSum(), pre(p), WithSum(c, pre)(p), AfterSum(c, pre)(p))
    {
      SumPollStep(c, p, pre);
    }
    Poll2Phase(c.n, TableOf(c), lo, EvalSumKeys0, EvalSumKeys1, GenSum(c), HoldSum(), JoinSum(c), GetSum0(), GetSum1(),
        KeepSum(), SetSum(), pre, WithSum(c, pre), AfterSum(c, pre), SumPoll(c), Poll2PlanOf(c, lo));
  }

  // ---- the three versions, stage after stage ----

  /** The public key, with broadcast. */
  function PubGen<T>(c: Setup<T>): nat -> Code<T> { Then(PubDown(c), PubCast(c)) }
  function PubGenPlan<T>(c: Setup<T>, lo: nat): nat -> Plan<T> {
    Then(PubDownPlan(c, lo), PubCastPlan(c, lo + c.n + 1))
  }

  lemma {:induction false} PubGenPhase<T>(c: Setup<T>, entry: Cell -> Val<T>, lo: nat, pre: Nodes<T>)
    requires Sound(c)
    ensures Phase(c.n, entry, lo, lo + c.n + 4, {}, PubGen(c), PubGenPlan(c, lo), pre, AfterPub(c, pre))
  {
    hide Phase, PubDown, PubDownPlan, WithPub, PubCast, PubCastPlan, AfterPub;
    PubDownPhase(c, entry, lo, pre);
    PubCastPhase(c, entry, lo + c.n + 1, pre);
    PhaseThen(c.n, entry, lo, lo + c.n + 1, lo + c.n + 4, {}, {}, {}, PubDown(c), PubDownPlan(c, lo), pre,
        WithPub(c, pre), PubCast(c), PubCastPlan(c, lo + c.n + 1), AfterPub(c, pre));
  }

  /** The multiplication key, with broadcast. */
  function MultGen<T(==)>(c: Setup<T>): nat -> Code<T> {
    Then(Then(EvalDown(c), AllCast(c)), Then(MixUp(c), MultCast(c)))
  }
  function MultGenPlan<T(==)>(c: Setup<T>, lo: nat): nat -> Plan<T> {
    Then(Then(EvalDownPlan(c, lo), AllCastPlan(c, lo + c.n + 1)), Then(MixUpPlan(c, lo + c.n + 4),
        MultCastPlan(c, lo + 2 * c.n + 5)))
  }

  lemma {:induction false} EvalGenPhase<T>(c: Setup<T>, entry: Cell -> Val<T>, lo: nat, pre: Nodes<T>)
    requires Sound(c)
    ensures Phase(c.n, entry, lo, lo + c.n + 4, {}, Then(EvalDown(c), AllCast(c)),
            Then(EvalDownPlan(c, lo), AllCastPlan(c, lo + c.n + 1)), pre, WithAll(c, pre))
  {
    hide Phase, EvalDown, EvalDownPlan, WithEval, AllCast, AllCastPlan, WithAll;
    EvalDownPhase(c, entry, lo, pre);
    AllCastPhase(c, entry, lo + c.n + 1, pre);
    PhaseThen(c.n, entry, lo, lo + c.n + 1, lo + c.n + 4, {}, {}, {}, EvalDown(c), EvalDownPlan(c, lo), pre,
        WithEval(c, pre), AllCast(c), AllCastPlan(c, lo + c.n + 1), WithAll(c, pre));
  }

  lemma {:induction false} MixGenPhase<T>(c: Setup<T>, entry: Cell -> Val<T>, lo: nat, pre: Nodes<T>)
    requires Sound(c)
    ensures Phase(c.n, entry, lo, lo + c.n + 4, {}, Then(MixUp(c), MultCast(c)),
            Then(MixUpPlan(c, lo), MultCastPlan(c, lo + c.n + 1)), WithAll(c, pre), AfterMult(c, pre))
  {
    hide Phase, MixUp, MixUpPlan, WithAll, WithMix, MultCast, MultCastPlan, AfterMult;
    MixUpPhase(c, entry, lo, pre);
    MultCastPhase(c, entry, lo + c.n + 1, pre);
    PhaseThen(c.n, entry, lo, lo + c.n + 1, lo + c.n + 4, {}, {}, {}, MixUp(c), MixUpPlan(c, lo), WithAll(c, pre),
        WithMix(c, pre), MultCast(c), MultCastPlan(c, lo + c.n + 1), AfterMult(c, pre));
  }

  lemma {:induction false} MultGenPhase<T>(c: Setup<T>, entry: Cell -> Val<T>, lo: nat, pre: Nodes<T>)
    requires Sound(c)
    ensures Phase(c.n, entry, lo, lo + 2 * c.n + 8, {}, MultGen(c), MultGenPlan(c, lo), pre, AfterMult(c, pre))
  {
    hide Phase, EvalDown, AllCast, EvalDownPlan, AllCastPlan, WithAll, MixUp, MultCast, MixUpPlan, MultCastPlan,
        AfterMult;
    EvalGenPhase(c, entry, lo, pre);
    MixGenPhase(c, entry, lo + c.n + 4, pre);
    PhaseThen(c.n, entry, lo, lo + c.n + 4, lo + 2 * c.n + 8, {}, {}, {}, Then(EvalDown(c), AllCast(c)),
        Then(EvalDownPlan(c, lo), AllCastPlan(c, lo + c.n + 1)), pre, WithAll(c, pre), Then(MixUp(c), MultCast(c)),
        Then(MixUpPlan(c, lo + c.n + 4), MultCastPlan(c, lo + c.n + 4 + c.n + 1)), AfterMult(c, pre));
  }

  /** The summation keys, with broadcast. */
  function SumGen<T>(c: Setup<T>): nat -> Code<T> { Then(SumDown(c), SumCast(c)) }
  function SumGenPlan<T>(c: Setup<T>, lo: nat): nat -> Plan<T> {
    Then(SumDownPlan(c, lo), SumCastPlan(c, lo + 2 * c.n + 2))
  }

  lemma {:induction false} SumGenPhase<T>(c: Setup<T>, entry: Cell -> Val<T>, lo: nat, pre: Nodes<T>)
    requires Sound(c)
    ensures Phase(c.n, entry, lo, lo + 2 * c.n + 5, {}, SumGen(c), SumGenPlan(c, lo), pre, AfterSum(c, pre))
  {
    hide Phase, SumDown, SumDownPlan, WithSum, SumCast, SumCastPlan, AfterSum;
    SumDownPhase(c, entry, lo, pre);
    SumCastPhase(c, entry, lo + 2 * c.n + 2, pre);
    PhaseThen(c.n, entry, lo, lo + 2 * c.n + 2, lo + 2 * c.n + 5, {}, {}, {}, SumDown(c), SumDownPlan(c, lo), pre,
        WithSum(c, pre), SumCast(c), SumCastPlan(c, lo + 2 * c.n + 2), AfterSum(c, pre));
  }

  /** The same three, relayed. */
  function PubRelay<T>(c: Setup<T>): nat -> Code<T> { Then(PubDown(c), PubUp(c)) }
  function PubRelayPlan<T>(c: Setup<T>, lo: nat): nat -> Plan<T> {
    Then(PubDownPlan(c, lo), PubUpPlan(c, lo + c.n + 1))
  }

  lemma {:induction false} PubRelayPhase<T>(c: Setup<T>, entry: Cell -> Val<T>, lo: nat, pre: Nodes<T>)
    requires 2 <= c.n
    ensures Phase(c.n, entry, lo, lo + 2 * c.n + 2, {}, PubRelay(c), PubRelayPlan(c, lo), pre, AfterPub(c, pre))
  {
    hide Phase, PubDown, PubDownPlan, WithPub, PubUp, PubUpPlan, AfterPub;
    PubDownPhase(c, entry, lo, pre);
    PubUpPhase(c, entry, lo + c.n + 1, pre);
    PhaseThen(c.n, entry, lo, lo + c.n + 1, lo + 2 * c.n + 2, {}, {}, {}, PubDown(c), PubDownPlan(c, lo), pre,
        WithPub(c, pre), PubUp(c), PubUpPlan(c, lo + c.n + 1), AfterPub(c, pre));
  }

  function MultRelay<T(==)>(c: Setup<T>): nat -> Code<T> {
    Then(Then(EvalDown(c), AllUp(c)), Then(MixUp(c), MultDown(c)))
  }
  function MultRelayPlan<T(==)>(c: Setup<T>, lo: nat): nat -> Plan<T> {
    Then(Then(EvalDownPlan(c, lo), AllUpPlan(c, lo + c.n + 1)), Then(MixUpPlan(c, lo + 2 * c.n + 2),
        MultDownPlan(c, lo + 3 * c.n + 3)))
  }

  lemma {:induction false} EvalRelayPhase<T>(c: Setup<T>, entry: Cell -> Val<T>, lo: nat, pre: Nodes<T>)
    requires 2 <= c.n
    ensures Phase(c.n, entry, lo, lo + 2 * c.n + 2, {}, Then(EvalDown(c), AllUp(c)),
            Then(EvalDownPlan(c, lo), AllUpPlan(c, lo + c.n + 1)), pre, WithAll(c, pre))
  {
    hide Phase, EvalDown, EvalDownPlan, WithEval, AllUp, AllUpPlan, WithAll;
    EvalDownPhase(c, entry, lo, pre);
    AllUpPhase(c, entry, lo + c.n + 1, pre);
    PhaseThen(c.n, entry, lo, lo + c.n + 1, lo + 2 * c.n + 2, {}, {}, {}, EvalDown(c), EvalDownPlan(c, lo), pre,
        WithEval(c, pre), AllUp(c), AllUpPlan(c, lo + c.n + 1), WithAll(c, pre));
  }

  lemma {:induction false} MixRelayPhase<T>(c: Setup<T>, entry: Cell -> Val<T>, lo: nat, pre: Nodes<T>)
    requires 2 <= c.n
    ensures Phase(c.n, entry, lo, lo + 2 * c.n + 2, {}, Then(MixUp(c), MultDown(c)),
            Then(MixUpPlan(c, lo), MultDownPlan(c, lo + c.n + 1)), WithAll(c, pre), AfterMult(c, pre))
  {
    hide Phase, MixUp, MixUpPlan, WithAll, WithMix, MultDown, MultDownPlan, AfterMult;
    MixUpPhase(c, entry, lo, pre);
    MultDownPhase(c, entry, lo + c.n + 1, pre);
    PhaseThen(c.n, entry, lo, lo + c.n + 1, lo + 2 * c.n + 2, {}, {}, {}, MixUp(c), MixUpPlan(c, lo), WithAll(c, pre),
        WithMix(c, pre), MultDown(c), MultDownPlan(c, lo + c.n + 1), AfterMult(c, pre));
  }

  lemma {:induction false} MultRelayPhase<T>(c: Setup<T>, entry: Cell -> Val<T>, lo: nat, pre: Nodes<T>)
    requires 2 <= c.n
    ensures Phase(c.n, entry, lo, lo + 4 * c.n + 4, {}, MultRelay(c), MultRelayPlan(c, lo), pre, AfterMult(c, pre))
  {
    hide Phase, EvalDown, AllUp, EvalDownPlan, AllUpPlan, WithAll, MixUp, MultDown, MixUpPlan, MultDownPlan, AfterMult;
    EvalRelayPhase(c, entry, lo, pre);
    MixRelayPhase(c, entry, lo + 2 * c.n + 2, pre);
    PhaseThen(c.n, entry, lo, lo + 2 * c.n + 2, lo + 4 * c.n + 4, {}, {}, {}, Then(EvalDown(c), AllUp(c)),
        Then(EvalDownPlan(c, lo), AllUpPlan(c, lo + c.n + 1)), pre, WithAll(c, pre), Then(MixUp(c), MultDown(c)),
        Then(MixUpPlan(c, lo + 2 * c.n + 2), MultDownPlan(c, lo + 2 * c.n + 2 + c.n + 1)), AfterMult(c, pre));
  }

  function SumRelay<T>(c: Setup<T>): nat -> Code<T> { Then(SumDown(c), SumUp(c)) }
  function SumRelayPlan<T>(c: Setup<T>, lo: nat): nat -> Plan<T> {
    Then(SumDownPlan(c, lo), SumUpPlan(c, lo + 2 * c.n + 2))
  }

  lemma {:induction false} SumRelayPhase<T>(c: Setup<T>, entry: Cell -> Val<T>, lo: nat, pre: Nodes<T>)
    requires 2 <= c.n
    ensures Phase(c.n, entry, lo, lo + 3 * c.n + 3, {}, SumRelay(c), SumRelayPlan(c, lo), pre, AfterSum(c, pre))
  {
    hide Phase, SumDown, SumDownPlan, WithSum, SumUp, SumUpPlan, AfterSum;
    SumDownPhase(c, entry, lo, pre);
    SumUpPhase(c, entry, lo + 2 * c.n + 2, pre);
    PhaseThen(c.n, entry, lo, lo + 2 * c.n + 2, lo + 3 * c.n + 3, {}, {}, {}, SumDown(c), SumDownPlan(c, lo), pre,
        WithSum(c, pre), SumUp(c), SumUpPlan(c, lo + 2 * c.n + 2), AfterSum(c, pre));
  }

  /** The multiplication key, by polling. */
  function MultPoll<T(==)>(c: Setup<T>): nat -> Code<T> { Then(EvalPoll(c), MixPoll(c)) }
  function MultPollPlan<T(==)>(c: Setup<T>, lo: nat): nat -> Plan<T> {
    Then(PollPlanOf(c, false, lo, EvalMultKeys), PollPlanOf(c, true, lo + c.n + 2, EvalMixMultKeys))
  }

  lemma {:induction false} MultPollPhase<T>(c: Setup<T>, lo: nat, pre: Nodes<T>)
    requires 2 <= c.n
    ensures Phase(c.n, TableOf(c), lo, lo + 2 * c.n + 4, {}, MultPoll(c), MultPollPlan(c, lo), pre, AfterMult(c, pre))
  {
    hide Phase, TableOf, EvalPoll, WithAll, MixPoll, AfterMult, PollPlanOf;
    EvalPollPhase(c, lo, pre);
    MixPollPhase(c, lo + c.n + 2, pre);
    PhaseThen(c.n, TableOf(c), lo, lo + c.n + 2, lo + 2 * c.n + 4, {}, {}, {}, EvalPoll(c),
        PollPlanOf(c, false, lo, EvalMultKeys), pre, WithAll(c, pre), MixPoll(c),
        PollPlanOf(c, true, lo + c.n + 2, EvalMixMultKeys), AfterMult(c, pre));
  }
}

/** The three joint key generations in the three ways the repository runs them: with broadcasts of
    what is final, relayed hop by hop, and through the tables of a server that clients poll. */
module JointKeys {
  import Rings
  import opened KeyAlgebra
  import opened Network
  import opened Phases
  import opened Patterns

  /** What a run is about: the number of parties, the secrets they draw, the rotations of the summation
      keys, and the order in which each party broadcasts. */
  datatype Setup<!T> = Setup(
    n: nat, ring: Rings.Ring<T>, secret: nat -> T, rotate: Rotations<T>, order: nat -> seq<nat>)

  /** What a party holds, by the name of the variable or field that holds it. */
  datatype Node<+T> = Node(
    pubKey: Val<T>, finalPub: Val<T>,
    evalKey: Val<T>, evalKeyAll: Val<T>, mixKey: Val<T>, evalMultFinal: Val<T>,
    sumKey0: Val<T>, sumKey1: Val<T>, evalSumFinal: Val<T>,
    recdShares: map<nat, T>, cipher: Val<T>, ciphers: map<nat, Val<T>>, result: Val<T>,
    recoveryShares: map<nat, T>, partial: Val<T>, slots: map<nat, Val<T>>, plaintext: Val<T>)

  type Code<!T> = seq<Instr<Node<T>, Val<T>>>
  type Plan<+T> = seq<Ranked<Val<T>>>

  ghost predicate Sound<T>(c: Setup<T>) {
    2 <= c.n && forall p: nat | 1 <= p <= c.n :: Others(c.order(p), p, c.n)
  }

  // ---- the keys of the centralised derivation ----

  function PubOf<T>(c: Setup<T>): nat -> Val<T> { (p: nat) => JointPub(c.ring, c.secret, p) }
  function FwdOf<T>(c: Setup<T>): nat -> Val<T> { (p: nat) => ForwardKey(c.ring, c.secret, p) }
  function BwdOf<T(==)>(c: Setup<T>): nat -> Val<T> { (p: nat) => BackwardKey(c.ring, c.secret, p, c.n) }
  function Sum0Of<T>(c: Setup<T>): nat -> Val<T> { (p: nat) => OwnSumKey(c.rotate, c.secret, p) }
  function Sum1Of<T>(c: Setup<T>): nat -> Val<T> { (p: nat) => JointSumKey(c.ring, c.rotate, c.secret, p) }
  function Always<A>(v: A): nat -> A { (p: nat) => v }

  // ---- where each stage takes the parties ----

  type Nodes<!T> = nat -> Node<T>

  function WithPub<T>(c: Setup<T>, pre: Nodes<T>): Nodes<T> { (p: nat) => pre(p).(pubKey := PubOf(c)(p)) }
  function AfterPub<T>(c: Setup<T>, pre: Nodes<T>): Nodes<T> {
    (p: nat) => WithPub(c, pre)(p).(finalPub := PubOf(c)(c.n))
  }

  function WithEval<T>(c: Setup<T>, pre: Nodes<T>): Nodes<T> { (p: nat) => pre(p).(evalKey := FwdOf(c)(p)) }
  function WithAll<T>(c: Setup<T>, pre: Nodes<T>): Nodes<T> {
    (p: nat) => WithEval(c, pre)(p).(evalKeyAll := FwdOf(c)(c.n))
  }
  function WithMix<T(==)>(c: Setup<T>, pre: Nodes<T>): Nodes<T> {
    (p: nat) => WithAll(c, pre)(p).(mixKey := BwdOf(c)(p))
  }
  function AfterMult<T(==)>(c: Setup<T>, pre: Nodes<T>): Nodes<T> {
    (p: nat) => WithMix(c, pre)(p).(evalMultFinal := BwdOf(c)(1))
  }

  function WithSum<T>(c: Setup<T>, pre: Nodes<T>): Nodes<T> {
    (p: nat) => pre(p).(sumKey0 := Sum0Of(c)(p), sumKey1 := Sum1Of(c)(p))
  }
  function AfterSum<T>(c: Setup<T>, pre: Nodes<T>): Nodes<T> {
    (p: nat) => WithSum(c, pre)(p).(evalSumFinal := Sum1Of(c)(c.n))
  }

  // ---- what one party computes ----

  function GenPub<T>(c: Setup<T>): Node<T> -> Node<T> {
    (k: Node<T>) => k.(pubKey := KeyAlgebra.Val.Pub(c.secret(1)))
  }
  function JoinPub<T>(c: Setup<T>): nat -> (Node<T>, Val<T>) -> Node<T> {
    (p: nat) => (k: Node<T>, prev: Val<T>) => k.(pubKey := MultipartyKeyGen(c.ring, prev, c.secret(p)))
  }
  function GenEval<T>(c: Setup<T>): Node<T> -> Node<T> {
    (k: Node<T>) => k.(evalKey := EvalKey(1, c.secret(1), c.secret(1)))
  }
  function JoinEval<T>(c: Setup<T>): nat -> (Node<T>, Val<T>) -> Node<T> {
    (p: nat) => (k: Node<T>, prev: Val<T>) => k.(evalKey := AddOwnKey(c.ring, prev, c.secret(p)))
  }
  function GenMix<T>(c: Setup<T>): Node<T> -> Node<T> {
    (k: Node<T>) => k.(mixKey := MultiMultEvalKey(c.ring, c.secret(c.n), k.evalKeyAll))
  }
  function JoinMix<T(==)>(c: Setup<T>): nat -> (Node<T>, Val<T>) -> Node<T> {
    (p: nat) => (k: Node<T>, prev: Val<T>) =>
      k.(mixKey := MultiAddEvalMultKeys(c.ring, MultiMultEvalKey(c.ring, c.secret(p), k.evalKeyAll), prev))
  }
  function GenSum<T>(c: Setup<T>): Node<T> -> Node<T> {
    (k: Node<T>) =>
      var own := EvalSumKeyGen(c.rotate, 1, c.secret(1));
      k.(sumKey0 := own, sumKey1 := own)
  }
  /** The first key received is held until the second arrives. */
  function HoldSum<T>(): (Node<T>, Val<T>) -> Node<T> {
    (k: Node<T>, prev: Val<T>) => k.(sumKey0 := prev)
  }
  function JoinSum<T>(c: Setup<T>): nat -> (Node<T>, Val<T>) -> Node<T> {
    (p: nat) => (k: Node<T>, prev: Val<T>) =>
      var own := MultiEvalSumKeyGen(c.rotate, k.sumKey0, c.secret(p));
      k.(sumKey0 := own, sumKey1 := MultiAddEvalSumKeys(c.ring, prev, own))
  }

  function GetPub<T>(): Node<T> -> Val<T> { (k: Node<T>) => k.pubKey }
  function GetFinalPub<T>(): Node<T> -> Val<T> { (k: Node<T>) => k.finalPub }
  function KeepPub<T>(): Node<T> -> Node<T> { (k: Node<T>) => k.(finalPub := k.pubKey) }
  function SetPub<T>(): (Node<T>, Val<T>) -> Node<T> { (k: Node<T>, v: Val<T>) => k.(finalPub := v) }
  function GetEval<T>(): Node<T> -> Val<T> { (k: Node<T>) => k.evalKey }
  function GetAll<T>(): Node<T> -> Val<T> { (k: Node<T>) => k.evalKeyAll }
  function KeepEval<T>(): Node<T> -> Node<T> { (k: Node<T>) => k.(evalKeyAll := k.evalKey) }
  function SetAll<T>(): (Node<T>, Val<T>) -> Node<T> { (k: Node<T>, v: Val<T>) => k.(evalKeyAll := v) }
  function GetMix<T>(): Node<T> -> Val<T> { (k: Node<T>) => k.mixKey }
  function GetFinalMult<T>(): Node<T> -> Val<T> { (k: Node<T>) => k.evalMultFinal }
  function KeepMix<T>(): Node<T> -> Node<T> { (k: Node<T>) => k.(evalMultFinal := k.mixKey) }
  function SetMult<T>(): (Node<T>, Val<T>) -> Node<T> { (k: Node<T>, v: Val<T>) => k.(evalMultFinal := v) }
  function GetSum0<T>(): Node<T> -> Val<T> { (k: Node<T>) => k.sumKey0 }
  function GetSum1<T>(): Node<T> -> Val<T> { (k: Node<T>) => k.sumKey1 }
  function GetFinalSum<T>(): Node<T> -> Val<T> { (k: Node<T>) => k.evalSumFinal }
  function KeepSum<T>(): Node<T> -> Node<T> { (k: Node<T>) => k.(evalSumFinal := k.sumKey1) }
  function SetSum<T>(): (Node<T>, Val<T>) -> Node<T> { (k: Node<T>, v: Val<T>) => k.(evalSumFinal := v) }
  function Each<A>(f: A): nat -> A { (p: nat) => f }
  function Msgs<V>(kind: string, val: nat -> V): nat -> Msg<V> { (p: nat) => Msg(kind, val(p)) }

  // ---- the stages that pass a key along the path ----

  function PubDown<T>(c: Setup<T>): nat -> Code<T> {
    (p: nat) => PassCode(c.n, false, p, "PublicKey", GenPub(c), JoinPub(c), GetPub())
  }
  function PubDownPlan<T>(c: Setup<T>, lo: nat): nat -> Plan<T> {
    (p: nat) => PassPlan(c.n, false, lo, p, "PublicKey", PubOf(c))
  }

  lemma {:induction false} PubDownPhase<T>(c: Setup<T>, entry: Cell -> Val<T>, lo: nat, pre: Nodes<T>)
    requires 2 <= c.n
    ensures Phase(c.n, entry, lo, lo + c.n + 1, {}, PubDown(c), PubDownPlan(c, lo), pre, WithPub(c, pre))
  {
    forall p: nat | 1 <= p <= c.n
      ensures PassStates(c.n, false, p, GenPub(c), JoinPub(c), GetPub(), PubOf(c), pre(p), WithPub(c, pre)(p)) {}
    PassPhase(c.n, entry, false, lo, "PublicKey", GenPub(c), JoinPub(c), GetPub(), PubOf(c), pre, WithPub(c, pre),
        PubDown(c), PubDownPlan(c, lo));
  }

  function EvalDown<T>(c: Setup<T>): nat -> Code<T> {
    (p: nat) => PassCode(c.n, false, p, "evalmultkey", GenEval(c), JoinEval(c), GetEval())
  }
  function EvalDownPlan<T>(c: Setup<T>, lo: nat): nat -> Plan<T> {
    (p: nat) => PassPlan(c.n, false, lo, p, "evalmultkey", FwdOf(c))
  }

  lemma {:induction false} EvalStep<T>(c: Setup<T>, p: nat, pre: Node<T>)
    requires 1 <= p <= c.n
    ensures PassStates(c.n, false, p, GenEval(c), JoinEval(c), GetEval(), FwdOf(c), pre, pre.(evalKey := FwdOf(c)(p)))
  {
    if 1 < p { assert FwdOf(c)(p) == AddOwnKey(c.ring, FwdOf(c)(Before(false, p)), c.secret(p)); }
  }

  lemma {:induction false} EvalDownPhase<T>(c: Setup<T>, entry: Cell -> Val<T>, lo: nat, pre: Nodes<T>)
    requires 2 <= c.n
    ensures Phase(c.n, entry, lo, lo + c.n + 1, {}, EvalDown(c), EvalDownPlan(c, lo), pre, WithEval(c, pre))
  {
    forall p: nat | 1 <= p <= c.n
      ensures PassStates(c.n, false, p, GenEval(c), JoinEval(c), GetEval(), FwdOf(c), pre(p),
               WithEval(c, pre)(p)) { EvalStep(c, p, pre(p)); }
    PassPhase(c.n, entry, false, lo, "evalmultkey", GenEval(c), JoinEval(c), GetEval(), FwdOf(c), pre, WithEval(c, pre),
        EvalDown(c), EvalDownPlan(c, lo));
  }

  function MixUp<T(==)>(c: Setup<T>): nat -> Code<T> {
    (p: nat) => PassCode(c.n, true, p, "evalmixmultkey", GenMix(c), JoinMix(c), GetMix())
  }
  function MixUpPlan<T(==)>(c: Setup<T>, lo: nat): nat -> Plan<T> {
    (p: nat) => PassPlan(c.n, true, lo, p, "evalmixmultkey", BwdOf(c))
  }

  lemma {:induction false} MixStep<T>(c: Setup<T>, p: nat, pre: Node<T>)
    requires 1 <= p <= c.n && pre.evalKeyAll == FwdOf(c)(c.n)
    ensures PassStates(c.n, true, p, GenMix(c), JoinMix(c), GetMix(), BwdOf(c), pre, pre.(mixKey := BwdOf(c)(p)))
  {
    var own := MultiMultEvalKey(c.ring, c.secret(p), ForwardKey(c.ring, c.secret, c.n));
    if p < c.n {
      assert BwdOf(c)(p) == MultiAddEvalMultKeys(c.ring, own, BwdOf(c)(Before(true, p)));
    } else {
      assert BwdOf(c)(p) == own;
    }
  }

  lemma {:induction false} MixUpPhase<T>(c: Setup<T>, entry: Cell -> Val<T>, lo: nat, pre: Nodes<T>)
    requires 2 <= c.n
    ensures Phase(c.n, entry, lo, lo + c.n + 1, {}, MixUp(c), MixUpPlan(c, lo), WithAll(c, pre), WithMix(c, pre))
  {
    forall p: nat | 1 <= p <= c.n
      ensures PassStates(c.n, true, p, GenMix(c), JoinMix(c), GetMix(), BwdOf(c), WithAll(c, pre)(p),
               WithMix(c, pre)(p)) { MixStep(c, p, WithAll(c, pre)(p)); }
    PassPhase(c.n, entry, true, lo, "evalmixmultkey", GenMix(c), JoinMix(c), GetMix(), BwdOf(c), WithAll(c, pre),
        WithMix(c, pre), MixUp(c), MixUpPlan(c, lo));
  }

  function SumDown<T>(c: Setup<T>): nat -> Code<T> {
    (p: nat) => Down2Code(c.n, p, "evalSumKeys0", "evalSumKeys1", GenSum(c), HoldSum(), JoinSum(c), GetSum0(),
        GetSum1())
  }
  function SumDownPlan<T>(c: Setup<T>, lo: nat): nat -> Plan<T> {
    (p: nat) => Down2Plan(c.n, lo, p, Msgs("evalSumKeys0", Sum0Of(c)), Msgs("evalSumKeys1", Sum1Of(c)))
  }

  lemma {:induction false} SumDownPhase<T>(c: Setup<T>, entry: Cell -> Val<T>, lo: nat, pre: Nodes<T>)
    requires 2 <= c.n
    ensures Phase(c.n, entry, lo, lo + 2 * c.n + 2, {}, SumDown(c), SumDownPlan(c, lo), pre, WithSum(c, pre))
  {
    var m0, m1 := Msgs("evalSumKeys0", Sum0Of(c)), Msgs("evalSumKeys1", Sum1Of(c));
    forall p: nat | 1 <= p <= c.n
      ensures Down2States(c.n, p, GenSum(c), HoldSum(), JoinSum(c), GetSum0(), GetSum1(), m0, m1, pre(p),
               WithSum(c, pre)(p)) {}
    Down2Phase(c.n, entry, lo, "evalSumKeys0", "evalSumKeys1", GenSum(c), HoldSum(), JoinSum(c), GetSum0(), GetSum1(),
        m0, m1, pre, WithSum(c, pre), SumDown(c), SumDownPlan(c, lo));
  }

  // ---- what is final, broadcast ----

  function PubCast<T>(c: Setup<T>): nat -> Code<T> {
    (p: nat) => BroadcastCode(c.n, c.order(c.n), p, "PublicKey", KeepPub(), GetFinalPub(), SetPub())
  }
  function PubCastPlan<T>(c: Setup<T>, lo: nat): nat -> Plan<T> {
    (p: nat) => BroadcastPlan(c.n, c.order(c.n), lo, p, Msg("PublicKey", PubOf(c)(c.n)))
  }

  lemma {:induction false} PubCastPhase<T>(c: Setup<T>, entry: Cell -> Val<T>, lo: nat, pre: Nodes<T>)
    requires Sound(c)
    ensures Phase(c.n, entry, lo, lo + 3, {}, PubCast(c), PubCastPlan(c, lo), WithPub(c, pre), AfterPub(c, pre))
  {
    forall p: nat | 1 <= p <= c.n
      ensures BroadcastStates(c.n, p, KeepPub(), GetFinalPub(), SetPub(), PubOf(c)(c.n), WithPub(c, pre)(p),
               AfterPub(c, pre)(p)) {}
    BroadcastPhase(c.n, entry, lo, c.n, c.order(c.n), "PublicKey", KeepPub(), GetFinalPub(), SetPub(), PubOf(c)(c.n),
        WithPub(c, pre), AfterPub(c, pre), PubCast(c), PubCastPlan(c, lo));
  }

  function AllCast<T>(c: Setup<T>): nat -> Code<T> {
    (p: nat) => BroadcastCode(c.n, c.order(c.n), p, "evalmultkey", KeepEval(), GetAll(), SetAll())
  }
  function AllCastPlan<T>(c: Setup<T>, lo: nat): nat -> Plan<T> {
    (p: nat) => BroadcastPlan(c.n, c.order(c.n), lo, p, Msg("evalmultkey", FwdOf(c)(c.n)))
  }

  lemma {:induction false} AllCastPhase<T>(c: Setup<T>, entry: Cell -> Val<T>, lo: nat, pre: Nodes<T>)
    requires Sound(c)
    ensures Phase(c.n, entry, lo, lo + 3, {}, AllCast(c), AllCastPlan(c, lo), WithEval(c, pre), WithAll(c, pre))
  {
    forall p: nat | 1 <= p <= c.n
      ensures BroadcastStates(c.n, p, KeepEval(), GetAll(), SetAll(), FwdOf(c)(c.n), WithEval(c, pre)(p),
               WithAll(c, pre)(p)) {}
    BroadcastPhase(c.n, entry, lo, c.n, c.order(c.n), "evalmultkey", KeepEval(), GetAll(), SetAll(), FwdOf(c)(c.n),
        WithEval(c, pre), WithAll(c, pre), AllCast(c), AllCastPlan(c, lo));
  }

  function MultCast<T>(c: Setup<T>): nat -> Code<T> {
    (p: nat) => BroadcastCode(1, c.order(1), p, "evalmixmultkey", KeepMix(), GetFinalMult(), SetMult())
  }
  function MultCastPlan<T(==)>(c: Setup<T>, lo: nat): nat -> Plan<T> {
    (p: nat) => BroadcastPlan(1, c.order(1), lo, p, Msg("evalmixmultkey", BwdOf(c)(1)))
  }

  lemma {:induction false} MultCastPhase<T>(c: Setup<T>, entry: Cell -> Val<T>, lo: nat, pre: Nodes<T>)
    requires Sound(c)
    ensures Phase(c.n, entry, lo, lo + 3, {}, MultCast(c), MultCastPlan(c, lo), WithMix(c, pre), AfterMult(c, pre))
  {
    forall p: nat | 1 <= p <= c.n
      ensures BroadcastStates(1, p, KeepMix(), GetFinalMult(), SetMult(), BwdOf(c)(1), WithMix(c, pre)(p),
               AfterMult(c, pre)(p)) {}
    BroadcastPhase(c.n, entry, lo, 1, c.order(1), "evalmixmultkey", KeepMix(), GetFinalMult(), SetMult(), BwdOf(c)(1),
        WithMix(c, pre), AfterMult(c, pre), MultCast(c), MultCastPlan(c, lo));
  }

  function SumCast<T>(c: Setup<T>): nat -> Code<T> {
    (p: nat) => BroadcastCode(c.n, c.order(c.n), p, "evalSumKeys1", KeepSum(), GetFinalSum(), SetSum())
  }
  function SumCastPlan<T>(c: Setup<T>, lo: nat): nat -> Plan<T> {
    (p: nat) => BroadcastPlan(c.n, c.order(c.n), lo, p, Msg("evalSumKeys1", Sum1Of(c)(c.n)))
  }

  lemma {:induction false} SumCastPhase<T>(c: Setup<T>, entry: Cell -> Val<T>, lo: nat, pre: Nodes<T>)
    requires Sound(c)
    ensures Phase(c.n, entry, lo, lo + 3, {}, SumCast(c), SumCastPlan(c, lo), WithSum(c, pre), AfterSum(c, pre))
  {
    forall p: nat | 1 <= p <= c.n
      ensures BroadcastStates(c.n, p, KeepSum(), GetFinalSum(), SetSum(), Sum1Of(c)(c.n), WithSum(c, pre)(p),
               AfterSum(c, pre)(p)) {}
    BroadcastPhase(c.n, entry, lo, c.n, c.order(c.n), "evalSumKeys1", KeepSum(), GetFinalSum(), SetSum(),
        Sum1Of(c)(c.n), WithSum(c, pre), AfterSum(c, pre), SumCast(c), SumCastPlan(c, lo));
  }

  // ---- what is final, relayed from hop to hop ----

  function PubUp<T>(c: Setup<T>): nat -> Code<T> {
    (p: nat) => PassCode(c.n, true, p, "PublicKey", KeepPub(), Each(SetPub()), GetFinalPub())
  }
  function PubUpPlan<T>(c: Setup<T>, lo: nat): nat -> Plan<T> {
    (p: nat) => PassPlan(c.n, true, lo, p, "PublicKey", Always(PubOf(c)(c.n)))
  }

  lemma {:induction false} PubUpPhase<T>(c: Setup<T>, entry: Cell -> Val<T>, lo: nat, pre: Nodes<T>)
    requires 2 <= c.n
    ensures Phase(c.n, entry, lo, lo + c.n + 1, {}, PubUp(c), PubUpPlan(c, lo), WithPub(c, pre), AfterPub(c, pre))
  {
    var val := Always(PubOf(c)(c.n));
    forall p: nat | 1 <= p <= c.n
      ensures PassStates(c.n, true, p, KeepPub(), Each(SetPub()), GetFinalPub(), val, WithPub(c, pre)(p),
               AfterPub(c, pre)(p)) {}
    PassPhase(c.n, entry, true, lo, "PublicKey", KeepPub(), Each(SetPub()), GetFinalPub(), val, WithPub(c, pre),
        AfterPub(c, pre), PubUp(c), PubUpPlan(c, lo));
  }

  function AllUp<T>(c: Setup<T>): nat -> Code<T> {
    (p: nat) => PassCode(c.n, true, p, "evalmultkey", KeepEval(), Each(SetAll()), GetAll())
  }
  function AllUpPlan<T>(c: Setup<T>, lo: nat): nat -> Plan<T> {
    (p: nat) => PassPlan(c.n, true, lo, p, "evalmultkey", Always(FwdOf(c)(c.n)))
  }

  lemma {:induction false} AllUpPhase<T>(c: Setup<T>, entry: Cell -> Val<T>, lo: nat, pre: Nodes<T>)
    requires 2 <= c.n
    ensures Phase(c.n, entry, lo, lo + c.n + 1, {}, AllUp(c), AllUpPlan(c, lo), WithEval(c, pre), WithAll(c, pre))
  {
    var val := Always(FwdOf(c)(c.n));
    forall p: nat | 1 <= p <= c.n
      ensures PassStates(c.n, true, p, KeepEval(), Each(SetAll()), GetAll(), val, WithEval(c, pre)(p),
               WithAll(c, pre)(p)) {}
    PassPhase(c.n, entry, true, lo, "evalmultkey", KeepEval(), Each(SetAll()), GetAll(), val, WithEval(c, pre),
        WithAll(c, pre), AllUp(c), AllUpPlan(c, lo));
  }

  function MultDown<T>(c: Setup<T>): nat -> Code<T> {
    (p: nat) => PassCode(c.n, false, p, "evalmixmultkey", KeepMix(), Each(SetMult()), GetFinalMult())
  }
  function MultDownPlan<T(==)>(c: Setup<T>, lo: nat): nat -> Plan<T> {
    (p: nat) => PassPlan(c.n, false, lo, p, "evalmixmultkey", Always(BwdOf(c)(1)))
  }

  lemma {:induction false} MultDownPhase<T>(c: Setup<T>, entry: Cell -> Val<T>, lo: nat, pre: Nodes<T>)
    requires 2 <= c.n
    ensures Phase(c.n, entry, lo, lo + c.n + 1, {}, MultDown(c), MultDownPlan(c, lo), WithMix(c, pre),
            AfterMult(c, pre))
  {
    var val := Always(BwdOf(c)(1));
    forall p: nat | 1 <= p <= c.n
      ensures PassStates(c.n, false, p, KeepMix(), Each(SetMult()), GetFinalMult(), val, WithMix(c, pre)(p),
               AfterMult(c, pre)(p)) {}
    PassPhase(c.n, entry, false, lo, "evalmixmultkey", KeepMix(), Each(SetMult()), GetFinalMult(), val, WithMix(c, pre),
        AfterMult(c, pre), MultDown(c), MultDownPlan(c, lo));
  }

  function SumUp<T>(c: Setup<T>): nat -> Code<T> {
    (p: nat) => PassCode(c.n, true, p, "evalSumKeys1", KeepSum(), Each(SetSum()), GetFinalSum())
  }
  function SumUpPlan<T>(c: Setup<T>, lo: nat): nat -> Plan<T> {
    (p: nat) => PassPlan(c.n, true, lo, p, "evalSumKeys1", Always(Sum1Of(c)(c.n)))
  }

  lemma {:induction false} SumUpPhase<T>(c: Setup<T>, entry: Cell -> Val<T>, lo: nat, pre: Nodes<T>)
    requires 2 <= c.n
    ensures Phase(c.n, entry, lo, lo + c.n + 1, {}, SumUp(c), SumUpPlan(c, lo), WithSum(c, pre), AfterSum(c, pre))
  {
    var val := Always(Sum1Of(c)(c.n));
    forall p: nat | 1 <= p <= c.n
      ensures PassStates(c.n, true, p, KeepSum(), Each(SetSum()), GetFinalSum(), val, WithSum(c, pre)(p),
               AfterSum(c, pre)(p)) {}
    PassPhase(c.n, entry, true, lo, "evalSumKeys1", KeepSum(), Each(SetSum()), GetFinalSum(), val, WithSum(c, pre),
        AfterSum(c, pre), SumUp(c), SumUpPlan(c, lo));
  }
}

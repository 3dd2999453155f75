/** The whole statistics program: nodes on a path that relay their joint keys and then an encrypted
    vector to which each adds its data, and the controller that starts and decrypts it. */
module Statistics {
  import opened Rings
  import opened KeyAlgebra
  import opened Network
  import opened Phases
  import opened Patterns
  import opened JointKeys
  import opened JointRuns
  import opened KeyTheorems
  import opened Dropouts
  import opened Hubs
  import opened Registers
  import opened Starvation

  /** The path (the controller is party n + 1), the order in which the controller sends the context,
      how vectors of `slots` places are encoded, encryption of the zero vector, and each node's data. */
  datatype Mission<!T> = Mission(c: Setup<T>, told: seq<nat>, slots: nat, encode: seq<real> -> T,
                                 zero: Val<T> -> Val<T>, data: nat -> seq<real>)

  function FourRegisters(): Layout { map["v1" := (0, 4), "v2" := (4, 4), "v3" := (8, 4), "n" := (12, 1)] }

  // ---- what a node does to the ciphertext ----

  /** The plaintext of a write: zeros up to the end of the register, but for one place. */
  function WriteVector(w: Write): seq<real>
    requires InRange(FourRegisters(), w.name, w.index)
  {
    var (offset, length) := FourRegisters()[w.name];
    seq(offset + length, i => if i == offset + w.index then w.val else 0.0)
  }

  /** EvalAdd of a write's plaintext; there is no result when the write is out of range. */
  function WriteOne<T>(m: Mission<T>, ct: Val<T>, w: Write): Val<T> {
    if InRange(FourRegisters(), w.name, w.index) && ct.Ct?
    then Ct(m.c.ring.add(ct.c0, m.encode(WriteVector(w))), ct.c1) else Garbage
  }

  function WriteAll<T>(m: Mission<T>, ct: Val<T>, ws: seq<Write>): Val<T>
    decreases |ws|
  {
    if |ws| == 0 then ct else WriteAll(m, WriteOne(m, ct, ws[0]), ws[1..])
  }

  /** The writes of node p, which has three values in its input file. */
  function WritesOf<T>(m: Mission<T>, p: nat): seq<Write> {
    if 1 <= p && |m.data(p)| == 3 then NodeWrites(p, m.data(p)) else []
  }

  /** The encrypted zero vector, and what it has become when node p sends it on. */
  function ZeroCt<T>(m: Mission<T>): Val<T> { m.zero(PubOf(m.c)(m.c.n)) }
  function PathCt<T>(m: Mission<T>, p: nat): Val<T> {
    if p == 0 then ZeroCt(m) else WriteAll(m, PathCt(m, p - 1), WritesOf(m, p))
  }
  function PathCts<T>(m: Mission<T>): nat -> Val<T> { (p: nat) => PathCt(m, p) }

  // ---- the program ----

  function EncryptZero<T>(m: Mission<T>): nat -> Node<T> -> Node<T> {
    (p: nat) => (k: Node<T>) => k.(cipher := m.zero(k.finalPub))
  }
  function SetCipher<T>(): (Node<T>, Val<T>) -> Node<T> { (k: Node<T>, v: Val<T>) => k.(cipher := v) }
  function VisitFirst<T>(m: Mission<T>): Node<T> -> Node<T> {
    (k: Node<T>) => k.(cipher := WriteAll(m, k.cipher, WritesOf(m, 1)))
  }
  function Visit<T>(m: Mission<T>): nat -> (Node<T>, Val<T>) -> Node<T> {
    (p: nat) => (k: Node<T>, prev: Val<T>) => k.(cipher := WriteAll(m, prev, WritesOf(m, p)))
  }
  function KeepResult<T>(): Node<T> -> Node<T> { (k: Node<T>) => k.(result := k.cipher) }
  function SetResult<T>(): (Node<T>, Val<T>) -> Node<T> { (k: Node<T>, v: Val<T>) => k.(result := v) }
  function GetResult<T>(): Node<T> -> Val<T> { (k: Node<T>) => k.result }
  function DecryptOwn<T>(m: Mission<T>): nat -> Node<T> -> Node<T> {
    (p: nat) => (k: Node<T>) => k.(partial := PartialOf(m.c.ring, k.result, m.c.secret, p))
  }
  function FuseHub<T>(m: Mission<T>, count: nat): Node<T> -> Node<T> {
    (k: Node<T>) => k.(plaintext := Fusion(m.c.ring, k.slots, count))
  }

  /** One message from a to b and nothing else. */
  function Tell<T>(a: nat, b: nat, kind: string, what: Node<T> -> Val<T>,
      store: (Node<T>, Val<T>) -> Node<T>): nat -> Code<T> {
    Across(a, b, kind, what, NoCode(), store)
  }
  function TellPlan<T>(a: nat, b: nat, m: Msg<Val<T>>, lo: nat): nat -> Plan<T> {
    AcrossPlan(a, b, m, lo, lo + 1, NoPlan())
  }

  function OnPath(n: nat): (r: set<nat>)
    ensures forall p :: p in r <==> 1 <= p <= n
  {
    if n == 0 then {} else OnPath(n - 1) + {n}
  }
  function Local<T>(idle: set<nat>, compute: nat -> Node<T> -> Node<T>): nat -> Code<T> {
    (p: nat) => LocalCode(idle, p, compute)
  }

  /** The context and the joint public key, which the controller needs for the zero vector. */
  function ContextSent<T>(m: Mission<T>): nat -> Code<T> {
    (p: nat) => BroadcastCode(m.c.n + 1, m.told, p, "cryptocontext", Dropouts.Same(), GetText(), Ignore())
  }
  function PubStage<T>(m: Mission<T>): nat -> Code<T> { Then(ContextSent(m), Wide(m.c.n, PubRelay(m.c))) }
  function TellPub<T>(m: Mission<T>): nat -> Code<T> {
    Tell(m.c.n, m.c.n + 1, "finalpublickey", GetFinalPub(), SetPub())
  }
  function Preparing<T>(m: Mission<T>): nat -> Code<T> {
    Then(PubStage(m), Then(TellPub(m), Local(OnPath(m.c.n), EncryptZero(m))))
  }

  /** The other keys, while the zero vector is on its way to node 1. */
  function TellMult<T>(m: Mission<T>): nat -> Code<T> {
    Tell(1, m.c.n + 1, "evalmultfinal", GetFinalMult(), SetMult())
  }
  function TellSum<T>(m: Mission<T>): nat -> Code<T> {
    Tell(m.c.n, m.c.n + 1, "evalsumfinal", GetFinalSum(), SetSum())
  }
  function OtherKeys<T(==)>(m: Mission<T>): nat -> Code<T> {
    Then(Then(Wide(m.c.n, MultRelay(m.c)), TellMult(m)), Then(Wide(m.c.n, SumRelay(m.c)), TellSum(m)))
  }
  function Keying<T(==)>(m: Mission<T>): nat -> Code<T> {
    Across(m.c.n + 1, 1, "zero ciphertext", GetCipher(), OtherKeys(m), SetCipher())
  }

  /** Down the path, back up, and the decryption. */
  function DownPath<T>(m: Mission<T>): nat -> Code<T> {
    (p: nat) => PassCode(m.c.n, false, p, "ciphertext", VisitFirst(m), Visit(m), GetCipher())
  }
  function UpPath<T>(m: Mission<T>): nat -> Code<T> {
    (p: nat) => PassCode(m.c.n, true, p, "ciphertext", KeepResult(), Each(SetResult()), GetResult())
  }
  function Travelling<T>(m: Mission<T>): nat -> Code<T> {
    Then(Wide(m.c.n, DownPath(m)), Wide(m.c.n, UpPath(m)))
  }
  function Decrypting<T>(m: Mission<T>): nat -> Code<T> {
    var n := m.c.n;
    Then(Then(Local({n + 1}, DecryptOwn(m)), CollectCode(n, "partialct", GetPartial(), KeepSlot())),
         Local(OnPath(n), Each(FuseHub(m, n))))
  }

  /** The program with a controller that is told the number of nodes. */
  function Told<T(==)>(m: Mission<T>): nat -> Code<T> {
    Then(Then(Preparing(m), Keying(m)), Then(Travelling(m), Decrypting(m)))
  }

  /** The controller, statement by statement, when it takes node `last` for the last of `count` nodes. */
  function Controller<T>(m: Mission<T>, last: nat, count: nat): Code<T> {
    [Let(Dropouts.Same())] + SendAll(m.told, "cryptocontext", GetText())
    + [Recv(last, "finalpublickey", SetPub()), Let(EncryptZero(m)(m.c.n + 1)),
       Send(1, "zero ciphertext", GetCipher()), Recv(1, "evalmultfinal", SetMult()),
       Recv(last, "evalsumfinal", SetSum())]
    + RecvAll(1, m.c.n, {}, "partialct", KeepSlot()) + [Let(FuseHub(m, count))]
  }

  /** Node 3; party 0 stands for it, and for nobody, when there are fewer nodes. */
  function NodeThree(n: nat): nat { if 3 <= n then 3 else 0 }

  /** The program as it is written: the number of nodes, three, is a constant of the controller. */
  function Program<T(==)>(m: Mission<T>): nat -> Code<T> {
    (p: nat) => if p <= m.c.n then Told(m)(p) else Controller(m, NodeThree(m.c.n), 3)
  }

  // ---- where the stages take the nodes and the controller ----

  function KnowsPub<T>(m: Mission<T>): Node<T> { Blank().(finalPub := PubOf(m.c)(m.c.n)) }
  function HasZero<T>(m: Mission<T>): Node<T> { KnowsPub(m).(cipher := ZeroCt(m)) }
  function KnowsMult<T(==)>(m: Mission<T>): Node<T> { HasZero(m).(evalMultFinal := BwdOf(m.c)(1)) }
  function KnowsAll<T(==)>(m: Mission<T>): Node<T> { KnowsMult(m).(evalSumFinal := Sum1Of(m.c)(m.c.n)) }

  function Keyed<T(==)>(m: Mission<T>): Nodes<T> { AfterKeys(m.c, AtStart()) }
  function Supplied<T(==)>(m: Mission<T>): Nodes<T> {
    (p: nat) => if p == 1 then Keyed(m)(p).(cipher := ZeroCt(m)) else Keyed(m)(p)
  }
  function Visited<T(==)>(m: Mission<T>): Nodes<T> { (p: nat) => Keyed(m)(p).(cipher := PathCt(m, p)) }
  function Returned<T(==)>(m: Mission<T>): Nodes<T> { (p: nat) => Visited(m)(p).(result := PathCt(m, m.c.n)) }
  function PartOf<T>(m: Mission<T>): nat -> Val<T> {
    (p: nat) => PartialOf(m.c.ring, PathCt(m, m.c.n), m.c.secret, p)
  }
  function Decrypted<T(==)>(m: Mission<T>): Nodes<T> { (p: nat) => Returned(m)(p).(partial := PartOf(m)(p)) }
  function Collected<T(==)>(m: Mission<T>): Node<T> { KnowsAll(m).(slots := Upwards(1, m.c.n, {}, PartOf(m))) }
  function Fused<T(==)>(m: Mission<T>): Node<T> { FuseHub(m, m.c.n)(Collected(m)) }

  // ---- the stages ----

  lemma {:induction false} TellPhase<T>(n: nat, entry: Cell -> Val<T>, a: nat, b: nat, kind: string,
      what: Node<T> -> Val<T>, store: (Node<T>, Val<T>) -> Node<T>, lo: nat, pre: Nodes<T>, post: Nodes<T>, v: Val<T>)
    requires 1 <= a <= n && 1 <= b <= n && v == what(pre(a))
    requires forall p: nat | 1 <= p <= n :: post(p) == if p == b then store(pre(p), v) else pre(p)
    ensures Phase(n, entry, lo, lo + 2, {}, Tell(a, b, kind, what, store), TellPlan(a, b, Msg(kind, v), lo), pre, post)
  {
    hide Phase, Across, AcrossPlan;
    NothingPhase(n, entry, lo + 1, lo + 1, pre, NoCode(), NoPlan());
    AcrossPhase(n, entry, a, b, kind, what, store, lo, lo + 1, NoCode(), NoPlan(), pre, pre, post, Msg(kind, v));
  }

  function ContextSentPlan<T>(m: Mission<T>): nat -> Plan<T> {
    (p: nat) => BroadcastPlan(m.c.n + 1, m.told, 0, p, Msg("cryptocontext", Text))
  }
  ghost predicate Ready<T>(m: Mission<T>) { 2 <= m.c.n && Others(m.told, m.c.n + 1, m.c.n + 1) }

  lemma {:induction false} ContextSentPhase<T>(m: Mission<T>, entry: Cell -> Val<T>, pre: Nodes<T>)
    requires Ready(m)
    ensures Phase(m.c.n + 1, entry, 0, 3, {}, ContextSent(m), ContextSentPlan(m), pre, pre)
  {
    hide Phase, BroadcastCode, BroadcastPlan;
    BroadcastPhase(m.c.n + 1, entry, 0, m.c.n + 1, m.told, "cryptocontext", Dropouts.Same(), GetText(), Ignore(), Text,
        pre, pre, ContextSent(m), ContextSentPlan(m));
  }

  function PubStagePlan<T>(m: Mission<T>): nat -> Plan<T> {
    Then(ContextSentPlan(m), Wide(m.c.n, PubRelayPlan(m.c, 3)))
  }

  lemma {:induction false} PubStagePhase<T>(m: Mission<T>, entry: Cell -> Val<T>)
    requires Ready(m)
    ensures Phase(m.c.n + 1, entry, 0, 2 * m.c.n + 5, {}, PubStage(m), PubStagePlan(m),
                  Beside(m.c.n, AtStart(), Blank()), Beside(m.c.n, AfterPub(m.c, AtStart()), Blank()))
  {
    hide Phase, ContextSent, ContextSentPlan, PubRelay, PubRelayPlan, AfterPub, AtStart, Wide, Beside;
    var n, start := m.c.n, Beside(m.c.n, AtStart<T>(), Blank());
    ContextSentPhase(m, entry, start);
    PubRelayPhase(m.c, entry, 3, AtStart());
    WidePhase(n, entry, 3, 2 * n + 5, PubRelay(m.c), PubRelayPlan(m.c, 3), AtStart(), AfterPub(m.c, AtStart()),
        Blank());
    PhaseThen(n + 1, entry, 0, 3, 2 * n + 5, {}, {}, {}, ContextSent(m), ContextSentPlan(m), start, start,
        Wide(n, PubRelay(m.c)), Wide(n, PubRelayPlan(m.c, 3)), Beside(n, AfterPub(m.c, AtStart()), Blank()));
  }

  function TellPubPlan<T>(m: Mission<T>, lo: nat): nat -> Plan<T> {
    TellPlan(m.c.n, m.c.n + 1, Msg("finalpublickey", PubOf(m.c)(m.c.n)), lo)
  }

  lemma {:induction false} TellPubPhase<T>(m: Mission<T>, entry: Cell -> Val<T>, lo: nat)
    requires Ready(m)
    ensures Phase(m.c.n + 1, entry, lo, lo + 2, {}, TellPub(m), TellPubPlan(m, lo),
                  Beside(m.c.n, AfterPub(m.c, AtStart()), Blank()),
                  Beside(m.c.n, AfterPub(m.c, AtStart()), KnowsPub(m)))
  {
    hide Phase, Tell, TellPlan, AfterPub, AtStart;
    var n, pub := m.c.n, AfterPub(m.c, AtStart());
    PubSet(m.c, AtStart(), n);
    TellPhase(n + 1, entry, n, n + 1, "finalpublickey", GetFinalPub(), SetPub(), lo, Beside(n, pub, Blank()),
        Beside(n, pub, KnowsPub(m)), PubOf(m.c)(n));
  }

  lemma {:induction false} ZeroPhase<T>(m: Mission<T>, entry: Cell -> Val<T>, lo: nat)
    ensures Phase(m.c.n + 1, entry, lo, lo + 1, {}, Local(OnPath(m.c.n), EncryptZero(m)),
                  LocalPlanOf(OnPath(m.c.n), lo), Beside(m.c.n, AfterPub(m.c, AtStart()), KnowsPub(m)),
                  Beside(m.c.n, AfterPub(m.c, AtStart()), HasZero(m)))
  {
    hide Phase, LocalCode, LocalPlan, AfterPub, AtStart, PubOf;
    var n, pub := m.c.n, AfterPub(m.c, AtStart());
    LocalPhase(n + 1, entry, lo, OnPath(n), EncryptZero(m), Beside(n, pub, KnowsPub(m)), Beside(n, pub, HasZero(m)),
        Local(OnPath(n), EncryptZero(m)), LocalPlanOf(OnPath(n), lo));
  }

  function PreparingPlan<T>(m: Mission<T>): nat -> Plan<T> {
    var n := m.c.n;
    Then(PubStagePlan(m), Then(TellPubPlan(m, 2 * n + 5), LocalPlanOf(OnPath(n), 2 * n + 7)))
  }

  lemma {:induction false} PreparingPhase<T>(m: Mission<T>, entry: Cell -> Val<T>)
    requires Ready(m)
    ensures Phase(m.c.n + 1, entry, 0, 2 * m.c.n + 8, {}, Preparing(m), PreparingPlan(m),
                  Beside(m.c.n, AtStart(), Blank()), Beside(m.c.n, AfterPub(m.c, AtStart()), HasZero(m)))
  {
    hide Phase, PubStage, PubStagePlan, TellPub, TellPubPlan, AfterPub, AtStart, Local, LocalPlanOf, Beside, HasZero,
        KnowsPub;
    var n, start, pub := m.c.n, Beside(m.c.n, AtStart<T>(), Blank()), AfterPub(m.c, AtStart());
    var known, zeroed := Beside(n, pub, KnowsPub(m)), Beside(n, pub, HasZero(m));
    var local, localPlan := Local(OnPath(n), EncryptZero(m)), LocalPlanOf<T>(OnPath(n), 2 * n + 7);
    PubStagePhase(m, entry);
    TellPubPhase(m, entry, 2 * n + 5);
    ZeroPhase(m, entry, 2 * n + 7);
    PhaseThen(n + 1, entry, 2 * n + 5, 2 * n + 7, 2 * n + 8, {}, {}, {}, TellPub(m), TellPubPlan(m, 2 * n + 5),
        Beside(n, pub, Blank()), known, local, localPlan, zeroed);
    PhaseThen(n + 1, entry, 0, 2 * n + 5, 2 * n + 8, {}, {}, {}, PubStage(m), PubStagePlan(m), start,
        Beside(n, pub, Blank()), Then(TellPub(m), local), Then(TellPubPlan(m, 2 * n + 5), localPlan), zeroed);
  }

  lemma {:induction false} PubSet<T>(c: Setup<T>, pre: Nodes<T>, p: nat)
    ensures AfterPub(c, pre)(p).finalPub == PubOf(c)(c.n)
  {}

  function TellMultPlan<T(==)>(m: Mission<T>, lo: nat): nat -> Plan<T> {
    TellPlan(1, m.c.n + 1, Msg("evalmultfinal", BwdOf(m.c)(1)), lo)
  }
  function TellSumPlan<T>(m: Mission<T>, lo: nat): nat -> Plan<T> {
    TellPlan(m.c.n, m.c.n + 1, Msg("evalsumfinal", Sum1Of(m.c)(m.c.n)), lo)
  }
  function MultStagePlan<T(==)>(m: Mission<T>, lo: nat): nat -> Plan<T> {
    Then(Wide(m.c.n, MultRelayPlan(m.c, lo)), TellMultPlan(m, lo + 4 * m.c.n + 4))
  }
  function SumStagePlan<T>(m: Mission<T>, lo: nat): nat -> Plan<T> {
    Then(Wide(m.c.n, SumRelayPlan(m.c, lo)), TellSumPlan(m, lo + 3 * m.c.n + 3))
  }
  function OtherKeysPlan<T(==)>(m: Mission<T>, lo: nat): nat -> Plan<T> {
    Then(MultStagePlan(m, lo), SumStagePlan(m, lo + 4 * m.c.n + 6))
  }

  lemma {:induction false} MultSet<T>(c: Setup<T>, pre: Nodes<T>, p: nat)
    ensures AfterMult(c, pre)(p).evalMultFinal == BwdOf(c)(1)
  {}

  lemma {:induction false} SumSet<T>(c: Setup<T>, pre: Nodes<T>, p: nat)
    ensures AfterSum(c, pre)(p).evalSumFinal == Sum1Of(c)(c.n)
  {}

  lemma {:induction false} MultStagePhase<T>(m: Mission<T>, entry: Cell -> Val<T>, lo: nat, pre: Nodes<T>)
    requires Ready(m)
    ensures Phase(m.c.n + 1, entry, lo, lo + 4 * m.c.n + 6, {}, Then(Wide(m.c.n, MultRelay(m.c)), TellMult(m)),
                  MultStagePlan(m, lo), Beside(m.c.n, pre, HasZero(m)),
                  Beside(m.c.n, AfterMult(m.c, pre), KnowsMult(m)))
  {
    hide Phase, MultRelay, MultRelayPlan, Tell, TellPlan, AfterMult, Wide, HasZero;
    var n, after, mid := m.c.n, AfterMult(m.c, pre), lo + 4 * m.c.n + 4;
    MultRelayPhase(m.c, entry, lo, pre);
    WidePhase(n, entry, lo, mid, MultRelay(m.c), MultRelayPlan(m.c, lo), pre, after, HasZero(m));
    MultSet(m.c, pre, 1);
    TellPhase(n + 1, entry, 1, n + 1, "evalmultfinal", GetFinalMult(), SetMult(), mid, Beside(n, after, HasZero(m)),
        Beside(n, after, KnowsMult(m)), BwdOf(m.c)(1));
    PhaseThen(n + 1, entry, lo, mid, mid + 2, {}, {}, {}, Wide(n, MultRelay(m.c)), Wide(n, MultRelayPlan(m.c, lo)),
        Beside(n, pre, HasZero(m)), Beside(n, after, HasZero(m)), TellMult(m), TellMultPlan(m, mid),
        Beside(n, after, KnowsMult(m)));
  }

  lemma {:induction false} SumStagePhase<T>(m: Mission<T>, entry: Cell -> Val<T>, lo: nat, pre: Nodes<T>)
    requires Ready(m)
    ensures Phase(m.c.n + 1, entry, lo, lo + 3 * m.c.n + 5, {}, Then(Wide(m.c.n, SumRelay(m.c)), TellSum(m)),
                  SumStagePlan(m, lo), Beside(m.c.n, pre, KnowsMult(m)), Beside(m.c.n, AfterSum(m.c, pre), KnowsAll(m)))
  {
    hide Phase, SumRelay, SumRelayPlan, Tell, TellPlan, AfterSum, Wide, KnowsMult;
    var n, after, mid := m.c.n, AfterSum(m.c, pre), lo + 3 * m.c.n + 3;
    SumRelayPhase(m.c, entry, lo, pre);
    WidePhase(n, entry, lo, mid, SumRelay(m.c), SumRelayPlan(m.c, lo), pre, after, KnowsMult(m));
    SumSet(m.c, pre, n);
    TellPhase(n + 1, entry, n, n + 1, "evalsumfinal", GetFinalSum(), SetSum(), mid, Beside(n, after, KnowsMult(m)),
        Beside(n, after, KnowsAll(m)), Sum1Of(m.c)(n));
    PhaseThen(n + 1, entry, lo, mid, mid + 2, {}, {}, {}, Wide(n, SumRelay(m.c)), Wide(n, SumRelayPlan(m.c, lo)),
        Beside(n, pre, KnowsMult(m)), Beside(n, after, KnowsMult(m)), TellSum(m), TellSumPlan(m, mid),
        Beside(n, after, KnowsAll(m)));
  }

  lemma {:induction false} OtherKeysPhase<T>(m: Mission<T>, entry: Cell -> Val<T>, lo: nat)
    requires Ready(m)
    ensures Phase(m.c.n + 1, entry, lo, lo + 7 * m.c.n + 11, {}, OtherKeys(m), OtherKeysPlan(m, lo),
                  Beside(m.c.n, AfterPub(m.c, AtStart()), HasZero(m)), Beside(m.c.n, Keyed(m), KnowsAll(m)))
  {
    hide Phase, MultRelay, SumRelay, TellMult, TellSum, MultStagePlan, SumStagePlan, AfterPub, AfterMult, AfterSum,
        AtStart, Wide, HasZero, KnowsMult, KnowsAll;
    var n, mid, pub := m.c.n, lo + 4 * m.c.n + 6, AfterPub(m.c, AtStart());
    MultStagePhase(m, entry, lo, pub);
    SumStagePhase(m, entry, mid, AfterMult(m.c, pub));
    PhaseThen(n + 1, entry, lo, mid, lo + 7 * n + 11, {}, {}, {}, Then(Wide(n, MultRelay(m.c)), TellMult(m)),
        MultStagePlan(m, lo), Beside(n, pub, HasZero(m)), Beside(n, AfterMult(m.c, pub), KnowsMult(m)),
        Then(Wide(n, SumRelay(m.c)), TellSum(m)), SumStagePlan(m, mid), Beside(n, Keyed(m), KnowsAll(m)));
  }

  /** While the other keys are made the controller only listens. */
  lemma {:induction false} ControllerListens<T>(m: Mission<T>, lo: nat)
    requires 1 <= m.c.n
    ensures SendsTo(OtherKeysPlan(m, lo)(m.c.n + 1), 1) == []
  {
    var n := m.c.n;
    TellSendsNothing(1, n + 1, Msg("evalmultfinal", BwdOf(m.c)(1)), lo + 4 * n + 4);
    TellSendsNothing(n, n + 1, Msg("evalsumfinal", Sum1Of(m.c)(n)), lo + 4 * n + 6 + 3 * n + 3);
    hide TellPlan, SendsTo, BwdOf, Sum1Of;
    assert MultStagePlan(m, lo)(n + 1) == [] + TellMultPlan(m, lo + 4 * n + 4)(n + 1);
    assert SumStagePlan(m, lo + 4 * n + 6)(n + 1) == [] + TellSumPlan(m, lo + 4 * n + 6 + 3 * n + 3)(n + 1);
    hide MultStagePlan, SumStagePlan, TellMultPlan, TellSumPlan;
    SendsConcat(MultStagePlan(m, lo)(n + 1), SumStagePlan(m, lo + 4 * n + 6)(n + 1), 1);
  }

  lemma {:induction false} TellSendsNothing<T>(a: nat, b: nat, m: Msg<Val<T>>, lo: nat)
    requires a != b
    ensures forall q: nat :: SendsTo(TellPlan(a, b, m, lo)(b), q) == []
  {
    var plan := TellPlan(a, b, m, lo)(b);
    assert plan == [Ranked(lo + 1, Got(a, m, lo))];
    forall q: nat ensures SendsTo(plan, q) == [] { Streams1(plan, q); }
  }

  function KeyingPlan<T(==)>(m: Mission<T>): nat -> Plan<T> {
    var lo := 2 * m.c.n + 8;
    AcrossPlan(m.c.n + 1, 1, Msg("zero ciphertext", ZeroCt(m)), lo, 9 * m.c.n + 20, OtherKeysPlan(m, lo + 1))
  }

  lemma {:induction false} KeyingPhase<T>(m: Mission<T>, entry: Cell -> Val<T>)
    requires Ready(m)
    ensures Phase(m.c.n + 1, entry, 2 * m.c.n + 8, 9 * m.c.n + 21, {}, Keying(m), KeyingPlan(m),
                  Beside(m.c.n, AfterPub(m.c, AtStart()), HasZero(m)), Beside(m.c.n, Supplied(m), KnowsAll(m)))
  {
    hide Phase, Across, AcrossPlan, OtherKeys, OtherKeysPlan, Keyed, AfterPub, KnowsAll;
    var n, lo := m.c.n, 2 * m.c.n + 8;
    OtherKeysPhase(m, entry, lo + 1);
    ControllerListens(m, lo + 1);
    AcrossPhase(n + 1, entry, n + 1, 1, "zero ciphertext", GetCipher(), SetCipher(), lo, 9 * n + 20, OtherKeys(m),
        OtherKeysPlan(m, lo + 1), Beside(n, AfterPub(m.c, AtStart()), HasZero(m)), Beside(n, Keyed(m), KnowsAll(m)),
        Beside(n, Supplied(m), KnowsAll(m)), Msg("zero ciphertext", ZeroCt(m)));
  }

  function DownPathPlan<T>(m: Mission<T>, lo: nat): nat -> Plan<T> {
    (p: nat) => PassPlan(m.c.n, false, lo, p, "ciphertext", PathCts(m))
  }
  function UpPathPlan<T>(m: Mission<T>, lo: nat): nat -> Plan<T> {
    (p: nat) => PassPlan(m.c.n, true, lo, p, "ciphertext", Always(PathCt(m, m.c.n)))
  }
  function TravellingPlan<T>(m: Mission<T>, lo: nat): nat -> Plan<T> {
    Then(Wide(m.c.n, DownPathPlan(m, lo)), Wide(m.c.n, UpPathPlan(m, lo + m.c.n + 1)))
  }

  lemma {:induction false} DownPathPhase<T>(m: Mission<T>, entry: Cell -> Val<T>, lo: nat)
    requires 2 <= m.c.n
    ensures Phase(m.c.n, entry, lo, lo + m.c.n + 1, {}, DownPath(m), DownPathPlan(m, lo), Supplied(m), Visited(m))
  {
    hide Phase, PassCode, PassPlan, WriteAll, Keyed;
    forall p: nat | 1 <= p <= m.c.n
      ensures PassStates(m.c.n, false, p, VisitFirst(m), Visit(m), GetCipher(), PathCts(m), Supplied(m)(p),
                         Visited(m)(p))
    {
      assert PathCt(m, p) == WriteAll(m, PathCt(m, p - 1), WritesOf(m, p));
    }
    PassPhase(m.c.n, entry, false, lo, "ciphertext", VisitFirst(m), Visit(m), GetCipher(), PathCts(m), Supplied(m),
        Visited(m), DownPath(m), DownPathPlan(m, lo));
  }

  lemma {:induction false} UpPathPhase<T>(m: Mission<T>, entry: Cell -> Val<T>, lo: nat)
    requires 2 <= m.c.n
    ensures Phase(m.c.n, entry, lo, lo + m.c.n + 1, {}, UpPath(m), UpPathPlan(m, lo), Visited(m), Returned(m))
  {
    hide Phase, PassCode, PassPlan, PathCt, Keyed;
    forall p: nat | 1 <= p <= m.c.n
      ensures PassStates(m.c.n, true, p, KeepResult(), Each(SetResult()), GetResult(), Always(PathCt(m, m.c.n)),
                         Visited(m)(p), Returned(m)(p)) {}
    PassPhase(m.c.n, entry, true, lo, "ciphertext", KeepResult(), Each(SetResult()), GetResult(),
        Always(PathCt(m, m.c.n)), Visited(m), Returned(m), UpPath(m), UpPathPlan(m, lo));
  }

  lemma {:induction false} TravellingPhase<T>(m: Mission<T>, entry: Cell -> Val<T>, lo: nat)
    requires 2 <= m.c.n
    ensures Phase(m.c.n + 1, entry, lo, lo + 2 * m.c.n + 2, {}, Travelling(m), TravellingPlan(m, lo),
                  Beside(m.c.n, Supplied(m), KnowsAll(m)), Beside(m.c.n, Returned(m), KnowsAll(m)))
  {
    hide Phase, DownPath, DownPathPlan, UpPath, UpPathPlan, Supplied, Visited, Returned, KnowsAll, Wide, Beside;
    var n, mid := m.c.n, lo + m.c.n + 1;
    DownPathPhase(m, entry, lo);
    WidePhase(n, entry, lo, mid, DownPath(m), DownPathPlan(m, lo), Supplied(m), Visited(m), KnowsAll(m));
    UpPathPhase(m, entry, mid);
    WidePhase(n, entry, mid, mid + n + 1, UpPath(m), UpPathPlan(m, mid), Visited(m), Returned(m), KnowsAll(m));
    PhaseThen(n + 1, entry, lo, mid, mid + n + 1, {}, {}, {}, Wide(n, DownPath(m)), Wide(n, DownPathPlan(m, lo)),
        Beside(n, Supplied(m), KnowsAll(m)), Beside(n, Visited(m), KnowsAll(m)), Wide(n, UpPath(m)),
        Wide(n, UpPathPlan(m, mid)), Beside(n, Returned(m), KnowsAll(m)));
  }

  function DecryptingPlan<T>(m: Mission<T>, lo: nat): nat -> Plan<T> {
    var n := m.c.n;
    Then(Then(LocalPlanOf({n + 1}, lo), CollectPlan(n, lo + 1, "partialct", PartOf(m))), LocalPlanOf(OnPath(n), lo + 3))
  }

  lemma {:induction false} CollectedPhase<T>(m: Mission<T>, entry: Cell -> Val<T>, lo: nat)
    ensures Phase(m.c.n + 1, entry, lo, lo + 2, {}, CollectCode(m.c.n, "partialct", GetPartial(), KeepSlot()),
                  CollectPlan(m.c.n, lo, "partialct", PartOf(m)), Beside(m.c.n, Decrypted(m), KnowsAll(m)),
                  Beside(m.c.n, Decrypted(m), Collected(m)))
  {
    hide Phase, CollectCode, CollectPlan, Returned, Upwards, Stored, PartialOf;
    var n := m.c.n;
    SlotsStored(KnowsAll(m), 1, n, {}, PartOf(m));
    assert KnowsAll(m).slots == map[];
    assert map[] + Upwards(1, n, {}, PartOf(m)) == Upwards(1, n, {}, PartOf(m));
    CollectPhase(n, entry, lo, "partialct", GetPartial(), KeepSlot(), PartOf(m),
        Beside(n, Decrypted(m), KnowsAll(m)), Beside(n, Decrypted(m), Collected(m)));
  }

  lemma {:induction false} PartialsPhase<T>(m: Mission<T>, entry: Cell -> Val<T>, lo: nat)
    ensures Phase(m.c.n + 1, entry, lo, lo + 1, {}, Local({m.c.n + 1}, DecryptOwn(m)), LocalPlanOf({m.c.n + 1}, lo),
                  Beside(m.c.n, Returned(m), KnowsAll(m)), Beside(m.c.n, Decrypted(m), KnowsAll(m)))
  {
    hide Phase, LocalCode, LocalPlan, KnowsAll, Visited, PartialOf, PathCt;
    var n, alone := m.c.n, {m.c.n + 1};
    LocalPhase(n + 1, entry, lo, alone, DecryptOwn(m), Beside(n, Returned(m), KnowsAll(m)),
        Beside(n, Decrypted(m), KnowsAll(m)), Local(alone, DecryptOwn(m)), LocalPlanOf(alone, lo));
  }

  lemma {:induction false} FusedPhase<T>(m: Mission<T>, entry: Cell -> Val<T>, lo: nat)
    ensures Phase(m.c.n + 1, entry, lo, lo + 1, {}, Local(OnPath(m.c.n), Each(FuseHub(m, m.c.n))),
                  LocalPlanOf(OnPath(m.c.n), lo),
                  Beside(m.c.n, Decrypted(m), Collected(m)), Beside(m.c.n, Decrypted(m), Fused(m)))
  {
    hide Phase, LocalCode, LocalPlan, Collected, Decrypted, FuseHub;
    var n := m.c.n;
    LocalPhase(n + 1, entry, lo, OnPath(n), Each(FuseHub(m, n)), Beside(n, Decrypted(m), Collected(m)),
        Beside(n, Decrypted(m), Fused(m)), Local(OnPath(n), Each(FuseHub(m, n))), LocalPlanOf(OnPath(n), lo));
  }

  lemma {:induction false} DecryptingPhase<T>(m: Mission<T>, entry: Cell -> Val<T>, lo: nat)
    ensures Phase(m.c.n + 1, entry, lo, lo + 4, {}, Decrypting(m), DecryptingPlan(m, lo),
                  Beside(m.c.n, Returned(m), KnowsAll(m)), Beside(m.c.n, Decrypted(m), Fused(m)))
  {
    hide Phase, Local, LocalPlanOf, CollectCode, CollectPlan, KnowsAll, Collected, Returned, Decrypted, Fused, Beside;
    var n, alone := m.c.n, {m.c.n + 1};
    var before, mid := Beside(n, Returned(m), KnowsAll(m)), Beside(n, Decrypted(m), KnowsAll(m));
    var full, after := Beside(n, Decrypted(m), Collected(m)), Beside(n, Decrypted(m), Fused(m));
    PartialsPhase(m, entry, lo);
    CollectedPhase(m, entry, lo + 1);
    FusedPhase(m, entry, lo + 3);
    PhaseThen(n + 1, entry, lo, lo + 1, lo + 3, {}, {}, {}, Local(alone, DecryptOwn(m)), LocalPlanOf(alone, lo), before,
        mid, CollectCode(n, "partialct", GetPartial(), KeepSlot()), CollectPlan(n, lo + 1, "partialct", PartOf(m)),
        full);
    PhaseThen(n + 1, entry, lo, lo + 3, lo + 4, {}, {}, {},
        Then(Local(alone, DecryptOwn(m)), CollectCode(n, "partialct", GetPartial(), KeepSlot())),
        Then(LocalPlanOf(alone, lo), CollectPlan(n, lo + 1, "partialct", PartOf(m))), before, full,
        Local(OnPath(n), Each(FuseHub(m, n))), LocalPlanOf(OnPath(n), lo + 3), after);
  }

  function ProgramPlan<T(==)>(m: Mission<T>): nat -> Plan<T> {
    Then(Then(PreparingPlan(m), KeyingPlan(m)),
         Then(TravellingPlan(m, 9 * m.c.n + 21), DecryptingPlan(m, 11 * m.c.n + 23)))
  }

  lemma {:induction false} ProgramPhase<T>(m: Mission<T>, entry: Cell -> Val<T>)
    requires Ready(m)
    ensures Phase(m.c.n + 1, entry, 0, 11 * m.c.n + 27, {}, Told(m), ProgramPlan(m),
                  Beside(m.c.n, AtStart(), Blank()), Beside(m.c.n, Decrypted(m), Fused(m)))
  {
    hide Phase, Preparing, PreparingPlan, Keying, KeyingPlan, Travelling, TravellingPlan, Decrypting, DecryptingPlan,
        Beside, AfterPub, HasZero, Supplied, KnowsAll, Returned, Decrypted, Fused, AtStart;
    var n, start := m.c.n, Beside(m.c.n, AtStart<T>(), Blank());
    var pub := Beside(n, AfterPub(m.c, AtStart()), HasZero(m));
    var keyed, back := Beside(n, Supplied(m), KnowsAll(m)), Beside(n, Returned(m), KnowsAll(m));
    var lo, mid := 9 * n + 21, 11 * n + 23;
    PreparingPhase(m, entry);
    KeyingPhase(m, entry);
    PhaseThen(n + 1, entry, 0, 2 * n + 8, lo, {}, {}, {}, Preparing(m), PreparingPlan(m), start, pub, Keying(m),
        KeyingPlan(m), keyed);
    TravellingPhase(m, entry, lo);
    DecryptingPhase(m, entry, mid);
    PhaseThen(n + 1, entry, lo, mid, mid + 4, {}, {}, {}, Travelling(m), TravellingPlan(m, lo), keyed, back,
        Decrypting(m), DecryptingPlan(m, mid), Beside(n, Decrypted(m), Fused(m)));
    PhaseThen(n + 1, entry, 0, lo, mid + 4, {}, {}, {}, Then(Preparing(m), Keying(m)),
        Then(PreparingPlan(m), KeyingPlan(m)), start, keyed, Then(Travelling(m), Decrypting(m)),
        Then(TravellingPlan(m, lo), DecryptingPlan(m, mid)), Beside(n, Decrypted(m), Fused(m)));
  }

  // ---- what the ciphertext holds ----

  /** The encoding of a sum is the sum of the encodings, and the encryption of the zero vector decrypts
      to its encoding. */
  ghost predicate Faithful<T(!new)>(m: Mission<T>) {
    && (forall a, b | |b| <= |a| :: m.encode(Added(a, b)) == m.c.ring.add(m.encode(a), m.encode(b)))
    && Carries(m, m.zero(KeyAlgebra.Val.Pub(Joint(m.c))), Zeros(m.slots))
  }

  function Zeros(slots: nat): seq<real> { seq(slots, i => 0.0) }

  /** The ciphertext decrypts, under the joint secret, to the encoding of the vector. */
  ghost predicate Carries<T>(m: Mission<T>, ct: Val<T>, v: seq<real>) {
    ct.Ct? && m.c.ring.add(ct.c0, m.c.ring.mul(Joint(m.c), ct.c1)) == m.encode(v)
  }

  lemma {:induction false} WriteIsAdded(ct: seq<real>, w: Write)
    requires InRange(FourRegisters(), w.name, w.index) && 13 <= |ct|
    ensures |WriteVector(w)| <= |ct| && Added(ct, WriteVector(w)) == Apply(FourRegisters(), ct, w)
  {}

  lemma {:induction false} WriteCarries<T(!new)>(m: Mission<T>, ct: Val<T>, v: seq<real>, w: Write)
    requires Commutative(m.c.ring) && Faithful(m) && Carries(m, ct, v) && 13 <= |v|
    requires InRange(FourRegisters(), w.name, w.index)
    ensures Carries(m, WriteOne(m, ct, w), Apply(FourRegisters(), v, w))
  {
    hide WriteVector, Added, Apply;
    WriteIsAdded(v, w);
    var g, x, y := m.c.ring, m.encode(WriteVector(w)), m.c.ring.mul(Joint(m.c), ct.c1);
    assert Law3(ct.c0, x, y) && Law2(x, y) && Law3(ct.c0, y, x);
  }

  lemma {:induction false} WritesCarry<T(!new)>(m: Mission<T>, ct: Val<T>, v: seq<real>, ws: seq<Write>)
    requires Commutative(m.c.ring) && Faithful(m) && Carries(m, ct, v) && 13 <= |v| && AllInRange(FourRegisters(), ws)
    ensures Carries(m, WriteAll(m, ct, ws), ApplyAll(FourRegisters(), v, ws))
    decreases |ws|
  {
    if |ws| != 0 {
      hide Commutative, Faithful, Carries, WriteOne, Apply;
      assert ws[0] in ws;
      WriteCarries(m, ct, v, ws[0]);
      WritesCarry(m, WriteOne(m, ct, ws[0]), Apply(FourRegisters(), v, ws[0]), ws[1..]);
    }
  }

  lemma {:induction false} WritesFail<T>(m: Mission<T>, ct: Val<T>, ws: seq<Write>)
    requires ct == Garbage || !AllInRange(FourRegisters(), ws)
    ensures WriteAll(m, ct, ws) == Garbage
    decreases |ws|
  {
    if |ws| != 0 { WritesFail(m, WriteOne(m, ct, ws[0]), ws[1..]); }
  }

  /** What has been gathered when node p sends the ciphertext on. */
  function GatheredBy<T>(m: Mission<T>, p: nat): (v: seq<real>)
    requires p <= 4 && 13 <= m.slots && forall i: nat :: |m.data(i)| == 3
    ensures |v| == m.slots
  {
    PathFits(p, m.data);
    ApplyAll(FourRegisters(), Zeros(m.slots), PathWrites(p, m.data))
  }

  lemma {:induction false} PathFits(p: nat, data: nat -> seq<real>)
    requires forall i: nat :: |data(i)| == 3
    ensures AllInRange(FourRegisters(), PathWrites(p, data)) <==> p <= 4
  {
    PathInRange(FourRegisters(), p, data);
  }

  lemma {:induction false} ApplyConcat(layout: Layout, ct: seq<real>, a: seq<Write>, b: seq<Write>)
    requires AllInRange(layout, a + b) && (forall r | r in layout :: layout[r].0 + layout[r].1 <= |ct|)
    ensures AllInRange(layout, a) && AllInRange(layout, b)
    ensures ApplyAll(layout, ct, a + b) == ApplyAll(layout, ApplyAll(layout, ct, a), b)
    decreases |a|
  {
    AllInRangeConcat(layout, a, b);
    if |a| == 0 {
      assert a + b == b;
    } else {
      assert (a + b)[1..] == a[1..] + b && a[0] in a && forall w | w in a[1..] :: w in a;
      assert forall w | w in (a + b)[1..] :: w in a + b;
      ApplyConcat(layout, Apply(layout, ct, a[0]), a[1..], b);
    }
  }

  lemma {:induction false} GatheredNext<T>(m: Mission<T>, p: nat)
    requires 1 <= p <= 4 && 13 <= m.slots && forall i: nat :: |m.data(i)| == 3
    ensures AllInRange(FourRegisters(), WritesOf(m, p)) && |GatheredBy(m, p - 1)| == m.slots
    ensures GatheredBy(m, p) == ApplyAll(FourRegisters(), GatheredBy(m, p - 1), WritesOf(m, p))
  {
    hide ApplyAll, NodeWrites, AllInRange;
    PathFits(p, m.data);
    PathFits(p - 1, m.data);
    ApplyConcat(FourRegisters(), Zeros(m.slots), PathWrites(p - 1, m.data), WritesOf(m, p));
  }

  lemma {:induction false} GatheredNone<T(!new)>(m: Mission<T>)
    requires Faithful(m) && 13 <= m.slots && 1 <= m.c.n && forall i: nat :: |m.data(i)| == 3
    ensures Carries(m, PathCt(m, 0), GatheredBy(m, 0))
  {
    hide Carries;
    JointPubIs(m.c.ring, m.c.secret, m.c.n);
    assert PathWrites(0, m.data) == [];
    assert GatheredBy(m, 0) == Zeros(m.slots);
  }

  lemma {:induction false} PathCarries<T(!new)>(m: Mission<T>, p: nat)
    requires Commutative(m.c.ring) && Faithful(m) && p <= 4 && 13 <= m.slots && 1 <= m.c.n
    requires forall i: nat :: |m.data(i)| == 3
    ensures Carries(m, PathCt(m, p), GatheredBy(m, p))
  {
    if p == 0 {
      GatheredNone(m);
    } else {
      assert PathCt(m, p) == WriteAll(m, PathCt(m, p - 1), WritesOf(m, p));
      hide *;
      PathCarries(m, p - 1);
      GatheredNext(m, p);
      WritesCarry(m, PathCt(m, p - 1), GatheredBy(m, p - 1), WritesOf(m, p));
    }
  }

  lemma {:induction false} PathFails<T>(m: Mission<T>, p: nat)
    requires 4 < p && forall i: nat :: |m.data(i)| == 3
    ensures PathCt(m, p) == Garbage
  {
    hide WriteAll, NodeWrites;
    if p > 5 { PathFails(m, p - 1); }
    NodeInRange(FourRegisters(), p, m.data(p));
    WritesFail(m, PathCt(m, p - 1), WritesOf(m, p));
  }

  // ---- what it comes to ----

  lemma {:induction false} FusedIs<T(!new)>(m: Mission<T>)
    requires Commutative(m.c.ring) && Faithful(m) && 2 <= m.c.n && 13 <= m.slots
    requires forall i: nat :: |m.data(i)| == 3
    ensures Fused(m).plaintext == if m.c.n <= 4 then Poly(m.encode(GatheredBy(m, m.c.n))) else Garbage
  {
    hide Commutative, PathCt, Faithful, Fusion, GatheredBy;
    var n, slots := m.c.n, Upwards(1, m.c.n, {}, PartOf(m));
    assert Fused(m).plaintext == Fusion(m.c.ring, slots, n);
    if n <= 4 {
      PathCarries(m, n);
      FusionIs(m.c.ring, slots, PathCt(m, n), m.c.secret, n);
    } else {
      PathFails(m, n);
      FusionFails(m.c.ring, slots, n);
    }
  }

  lemma {:induction false} FusionFails<T>(g: Ring<T>, slots: map<nat, Val<T>>, n: nat)
    requires 2 <= n && (n in slots ==> slots[n] == Garbage)
    ensures Fusion(g, slots, n) == Garbage
  {}

  /** What register k of the three holds at an index: the node's value, or zero beyond the last node. */
  ghost predicate Holds<T>(m: Mission<T>, v: seq<real>, k: nat, index: nat)
    requires k < 3 && index < 4 && 13 <= |v| && forall i: nat :: |m.data(i)| == 3
  {
    v[FourRegisters()[Vector(k)].0 + index] == if index < m.c.n then m.data(index + 1)[k] else 0.0
  }

  /** Each node's three values at its own index, zeros beyond the last node, and the count. */
  ghost predicate HoldsData<T>(m: Mission<T>, v: seq<real>)
    requires forall i: nat :: |m.data(i)| == 3
  {
    && 13 <= |v| && v[FourRegisters()["n"].0] == m.c.n as real
    && forall k: nat, index: nat | k < 3 && index < 4 :: Holds(m, v, k, index)
  }

  lemma {:induction false} RegistersFit(slots: nat)
    requires 13 <= slots
    ensures Registers.Fits(FourRegisters(), slots)
  {}

  lemma {:induction false} GatheredHolds<T>(m: Mission<T>)
    requires m.c.n <= 4 && 13 <= m.slots && forall i: nat :: |m.data(i)| == 3
    ensures HoldsData(m, GatheredBy(m, m.c.n))
  {
    hide ApplyAll, PathWrites, AllInRange;
    RegistersFit(m.slots);
    PathFits(m.c.n, m.data);
    var v := GatheredBy(m, m.c.n);
    forall k: nat, index: nat | k < 3 && index < 4 ensures Holds(m, v, k, index) {
      PathGathers(FourRegisters(), m.slots, m.c.n, m.data, k, index);
    }
    PathGathers(FourRegisters(), m.slots, m.c.n, m.data, 0, 0);
  }

  ghost predicate HasAllKeys<T>(c: Setup<T>, k: Node<T>) { HasPub(c, k) && HasMult(c, k) && HasSum(c, k) }

  lemma {:induction false} KeysReach<T(!new)>(m: Mission<T>, p: nat)
    requires Lawful(m.c)
    ensures HasAllKeys(m.c, Decrypted(m)(p)) && HasAllKeys(m.c, Fused(m))
  {
    hide Commutative, Additive, SumTo, AfterPub, AfterMult, AfterSum, PathCt, PartialOf, Fusion, Upwards;
    KeysAre(m.c, AtStart(), p);
    JointPubIs(m.c.ring, m.c.secret, m.c.n);
    FinalMultKeyIs(m.c.ring, m.c.secret, m.c.n);
    JointSumKeyIs(m.c.ring, m.c.rotate, m.c.secret, m.c.n);
    assert Visited(m)(p) == Keyed(m)(p).(cipher := PathCt(m, p));
    assert Returned(m)(p) == Visited(m)(p).(result := PathCt(m, m.c.n));
    assert Decrypted(m)(p) == Returned(m)(p).(partial := PartOf(m)(p));
  }

  function Begin<T(==)>(m: Mission<T>, code: nat -> Code<T>): Net<Node<T>, Val<T>> {
    Start(m.c.n + 1, code, Beside(m.c.n, AtStart(), Blank()))
  }

  /** Everybody holds the keys, and the controller the decryption of the gathered vector if and only if
      there are at most four nodes. */
  ghost predicate EndsWith<T>(m: Mission<T>, end: Nodes<T>)
    requires forall i: nat :: |m.data(i)| == 3
  {
    && (forall p: nat | 1 <= p <= m.c.n + 1 :: HasAllKeys(m.c, end(p)))
    && ((exists v :: HoldsData(m, v) && end(m.c.n + 1).plaintext == Poly(m.encode(v))) <==> m.c.n <= 4)
  }

  lemma {:induction false} TheEnd<T(!new)>(m: Mission<T>)
    requires Lawful(m.c) && Faithful(m) && 13 <= m.slots && forall i: nat :: |m.data(i)| == 3
    ensures EndsWith(m, Beside(m.c.n, Decrypted(m), Fused(m)))
  {
    hide Decrypted, Fused, HasAllKeys, Commutative, Additive, Faithful, GatheredBy, HoldsData;
    var end := Beside(m.c.n, Decrypted(m), Fused(m));
    forall p: nat | 1 <= p <= m.c.n + 1 ensures HasAllKeys(m.c, end(p)) {
      KeysReach(m, p);
    }
    FusedIs(m);
    assert end(m.c.n + 1) == Fused(m);
    if m.c.n <= 4 {
      GatheredHolds(m);
      assert HoldsData(m, GatheredBy(m, m.c.n)) && end(m.c.n + 1).plaintext == Poly(m.encode(GatheredBy(m, m.c.n)));
    } else {
      assert end(m.c.n + 1).plaintext == Garbage;
    }
  }

  function Final<T>(n: nat, net: Net<Node<T>, Val<T>>): Nodes<T>
    requires Parties(n, net)
  {
    (p: nat) => if p in net.party then net.party[p].st else Blank()
  }

  /** With a controller that is told the number of nodes: every interleaving goes well and ends with
      everybody, the controller included, holding the keys of the joint secret, and, if and only if there
      are at most four nodes, with the controller holding a vector in which each node's data stand at that
      node's index, with the number of nodes in the counter. */
  lemma {:induction false} ToldEveryRun<T(!new)>(m: Mission<T>, entry: Cell -> Val<T>, who: seq<nat>)
    requires Lawful(m.c) && Ready(m) && Faithful(m) && 13 <= m.slots && forall i: nat :: |m.data(i)| == 3
    requires CanRun(Begin(m, Told(m)), who)
    ensures var n, net := m.c.n + 1, Run(Begin(m, Told(m)), who);
            GoesWell(n, Begin(m, Told(m)), net, |who|) && (Finished(n, net) ==> EndsWith(m, Final(n, net)))
  {
    hide Phase, Told, ProgramPlan, AtStart, Decrypted, Fused, GoesWell, HasAllKeys, Commutative, Additive, Faithful,
        HoldsData, Run, CanRun, Start, CarriesPlan;
    ProgramPhase(m, entry);
    EveryPhaseRun(m.c.n + 1, entry, 11 * m.c.n + 27, {}, Told(m), ProgramPlan(m),
        Beside(m.c.n, AtStart(), Blank()), Beside(m.c.n, Decrypted(m), Fused(m)), who);
    TheEnd(m);
    var n, net := m.c.n + 1, Run(Begin(m, Told(m)), who);
    if Finished(n, net) {
      assert forall p: nat | 1 <= p <= n :: Final(n, net)(p) == Beside(m.c.n, Decrypted(m), Fused(m))(p);
    }
  }

  // ---- the controller as it is written ----

  lemma {:induction false} ControllerIs<T>(m: Mission<T>)
    requires Ready(m)
    ensures Told(m)(m.c.n + 1) == Controller(m, m.c.n, m.c.n)
  {
    hide PubRelay, MultRelay, SumRelay, SendAll, RecvAll, DownPath, UpPath;
    var n, p := m.c.n, m.c.n + 1;
    var send: Code<T>, collect: Code<T> := SendAll(m.told, "cryptocontext", GetText()),
        RecvAll(1, n, {}, "partialct", KeepSlot());
    var pub: Code<T>, mult: Code<T>, sum: Code<T> := [Recv(n, "finalpublickey", SetPub())],
        [Recv(1, "evalmultfinal", SetMult())], [Recv(n, "evalsumfinal", SetSum())];
    assert ContextSent(m)(p) == [Let(Dropouts.Same())] + send;
    assert TellPub(m)(p) == pub && TellMult(m)(p) == mult && TellSum(m)(p) == sum;
    assert Preparing(m)(p) == [Let(Dropouts.Same())] + send + pub + [Let(EncryptZero(m)(p))];
    assert OtherKeys(m)(p) == mult + sum;
    assert Keying(m)(p) == [Send(1, "zero ciphertext", GetCipher())] + (mult + sum);
    assert Travelling(m)(p) == [];
    assert Decrypting(m)(p) == collect + [Let(FuseHub(m, n))];
  }

  lemma {:induction false} ControllerCounts<T>(m: Mission<T>, last: nat, count: nat, a: nat)
    ensures RecvCount(Controller(m, last, count), a)
            == (if a == last then 2 else 0) + (if a == 1 then 1 else 0) + (if 1 <= a <= m.c.n then 1 else 0)
  {
    var send: Code<T>, collect: Code<T> := SendAll(m.told, "cryptocontext", GetText()),
        RecvAll(1, m.c.n, {}, "partialct", KeepSlot());
    var ready: Code<T>, end: Code<T> := [Let(Dropouts.Same())], [Let(FuseHub(m, count))];
    var keys: Code<T> := [Recv(last, "finalpublickey", SetPub()), Let(EncryptZero(m)(m.c.n + 1)),
        Send(1, "zero ciphertext", GetCipher()), Recv(1, "evalmultfinal", SetMult()),
        Recv(last, "evalsumfinal", SetSum())];
    SendAllCounts<Node<T>, Val<T>>(m.told, "cryptocontext", GetText(), a);
    RecvAllCounts<Node<T>, Val<T>>(1, m.c.n, {}, "partialct", KeepSlot(), a);
    hide SendAll, RecvAll;
    FiveCount(keys, a);
    assert ready[1..] == [] && end[1..] == [];
    CountsConcat(ready, send, a);
    CountsConcat(ready + send, keys, a);
    CountsConcat(ready + send + keys, collect, a);
    CountsConcat(ready + send + keys + collect, end, a);
  }

  lemma {:induction false} FiveCount<L, V>(code: seq<Instr<L, V>>, a: nat)
    requires |code| == 5
    ensures RecvCount(code, a)
            == One(code[0], a) + One(code[1], a) + One(code[2], a) + One(code[3], a) + One(code[4], a)
  {
    assert code[1..][1..] == code[2..] && code[2..][1..] == code[3..] && code[3..][1..] == code[4..];
    assert RecvCount(code[4..], a) == One(code[4], a) by { assert code[4..][1..] == []; }
    assert RecvCount(code[3..], a) == One(code[3], a) + RecvCount(code[4..], a);
    assert RecvCount(code[2..], a) == One(code[2], a) + RecvCount(code[3..], a);
    assert RecvCount(code[1..], a) == One(code[1], a) + RecvCount(code[2..], a);
  }

  function One<L, V>(i: Instr<L, V>, a: nat): nat { if i.Recv? && i.from == a then 1 else 0 }

  /** Node 3, when it is not the last, sends the controller only its partial decryption. */
  lemma {:induction false} ThreeSendsOnce<T>(m: Mission<T>, entry: Cell -> Val<T>)
    requires Ready(m) && 3 < m.c.n
    ensures SendCount(Told(m)(3), m.c.n + 1) == 1
  {
    hide Phase, Told, ProgramPlan, Beside, Decrypted, Fused, AtStart, Controller;
    ProgramPhase(m, entry);
    PhaseCounts(m.c.n + 1, entry, 0, 11 * m.c.n + 27, {}, Told(m), ProgramPlan(m), Beside(m.c.n, AtStart(), Blank()),
        Beside(m.c.n, Decrypted(m), Fused(m)), 3, m.c.n + 1);
    ControllerIs(m);
    ControllerCounts(m, m.c.n, m.c.n, 3);
  }

  /** With another number of nodes than three the controller gets through in no interleaving. */
  lemma {:induction false} ControllerStuck<T>(m: Mission<T>, entry: Cell -> Val<T>, who: seq<nat>)
    requires Ready(m) && m.c.n != 3 && CanRun(Begin(m, Program(m)), who)
    ensures !Through(Run(Begin(m, Program(m)), who), m.c.n + 1)
  {
    hide Told, Controller, AtStart, Beside, Run, CanRun;
    var last := NodeThree(m.c.n);
    ControllerCounts(m, last, 3, last);
    if 3 < m.c.n { ThreeSendsOnce(m, entry); }
    NeverThrough(m.c.n + 1, Program(m), Beside(m.c.n, AtStart(), Blank()), last, m.c.n + 1, who);
  }

  lemma {:induction false} ThreeAsTold<T>(m: Mission<T>)
    requires Ready(m) && m.c.n == 3
    ensures Begin(m, Program(m)) == Begin(m, Told(m))
  {
    hide Told, Controller, AtStart, Beside;
    ControllerIs(m);
    assert forall p: nat | 1 <= p <= 4 :: Program(m)(p) == Told(m)(p);
  }

  /** The controller is through and holds a vector with each node's data at that node's index and the
      number of nodes in the counter. */
  ghost predicate Served<T>(m: Mission<T>, net: Net<Node<T>, Val<T>>)
    requires forall i: nat :: |m.data(i)| == 3
  {
    && Through(net, m.c.n + 1)
    && exists v :: HoldsData(m, v) && net.party[m.c.n + 1].st.plaintext == Poly(m.encode(v))
  }

  /** As it is written: a run that can go no further has served the controller if and only if there are
      three nodes. With three every interleaving goes well and all end with the keys; with any other number
      the controller gets through in none. */
  lemma {:induction false} StatisticsEveryRun<T(!new)>(m: Mission<T>, entry: Cell -> Val<T>, who: seq<nat>)
    requires Lawful(m.c) && Ready(m) && Faithful(m) && 13 <= m.slots && forall i: nat :: |m.data(i)| == 3
    requires CanRun(Begin(m, Program(m)), who)
    ensures var n, net := m.c.n + 1, Run(Begin(m, Program(m)), who);
            && (m.c.n == 3 ==> GoesWell(n, Begin(m, Program(m)), net, |who|)
                               && (Finished(n, net) ==> EndsWith(m, Final(n, net))))
            && (m.c.n != 3 ==> !Through(net, n))
            && (Halted(n, net) ==> (Served(m, net) <==> m.c.n == 3))
  {
    hide Program, Told, AtStart, HasAllKeys, Commutative, Additive, Faithful, HoldsData, Run, CanRun, Begin, KindsMatch,
        Work, Waits;
    if m.c.n == 3 {
      ThreeAsTold(m);
      ToldEveryRun(m, entry, who);
      var net := Run(Begin(m, Program(m)), who);
      assert Halted(4, net) ==> Finished(4, net);
    } else {
      ControllerStuck(m, entry, who);
    }
  }

  // ---- the averages ----

  function Total(s: seq<real>): real { if |s| == 0 then 0.0 else s[0] + Total(s[1..]) }

  /** The sum of value k over nodes 1..p. */
  function DataSum<T>(m: Mission<T>, k: nat, p: nat): real
    requires k < 3 && forall i: nat :: |m.data(i)| == 3
  {
    if p == 0 then 0.0 else DataSum(m, k, p - 1) + m.data(p)[k]
  }

  lemma {:induction false} TotalOfFour(s: seq<real>)
    requires |s| == 4
    ensures Total(s) == s[0] + s[1] + s[2] + s[3]
  {
    assert s[1..][1..] == s[2..] && s[2..][1..] == s[3..] && s[3..][1..] == [];
    assert Total(s[3..]) == s[3] && Total(s[2..]) == s[2] + Total(s[3..]) && Total(s[1..]) == s[1] + Total(s[2..]);
  }

  /** What the controller divides, a register's total by the counter, is the mean over the nodes. */
  lemma {:induction false} MeanIs<T>(m: Mission<T>, v: seq<real>, k: nat)
    requires k < 3 && 1 <= m.c.n <= 4 && (forall i: nat :: |m.data(i)| == 3) && HoldsData(m, v)
    ensures Total(Stretch(FourRegisters(), v, Vector(k))) / Stretch(FourRegisters(), v, "n")[0]
            == DataSum(m, k, m.c.n) / m.c.n as real
  {
    NamesDiffer();
    var register := Stretch(FourRegisters(), v, Vector(k));
    TotalOfFour(register);
    assert Holds(m, v, k, 0) && Holds(m, v, k, 1) && Holds(m, v, k, 2) && Holds(m, v, k, 3);
    FourSum(m, k);
  }

  lemma {:induction false} FourSum<T>(m: Mission<T>, k: nat)
    requires k < 3 && m.c.n <= 4 && forall i: nat :: |m.data(i)| == 3
    ensures DataSum(m, k, m.c.n)
            == (if 0 < m.c.n then m.data(1)[k] else 0.0) + (if 1 < m.c.n then m.data(2)[k] else 0.0)
               + (if 2 < m.c.n then m.data(3)[k] else 0.0) + (if 3 < m.c.n then m.data(4)[k] else 0.0)
  {
    assert DataSum(m, k, 1) == 0.0 + m.data(1)[k] && DataSum(m, k, 2) == DataSum(m, k, 1) + m.data(2)[k];
    assert DataSum(m, k, 3) == DataSum(m, k, 2) + m.data(3)[k] && DataSum(m, k, 4) == DataSum(m, k, 3) + m.data(4)[k];
  }

  // ---- the assumptions can be met ----

  function At(a: seq<real>, i: nat): real { if i < |a| then a[i] else 0.0 }
  function Plus(a: seq<real>, b: seq<real>): seq<real> { seq(16, i requires 0 <= i < 16 => At(a, i) + At(b, i)) }
  function Times(a: seq<real>, b: seq<real>): seq<real> { seq(16, i requires 0 <= i < 16 => At(a, i) * At(b, i)) }
  function Padded(a: seq<real>): seq<real> { seq(16, i requires 0 <= i < 16 => At(a, i)) }
  function Untouched(): Rotations<seq<real>> { Rotations({1}, (k: nat, a: seq<real>) => a) }

  function Example(n: nat): Mission<seq<real>> {
    Mission(Setup(n, Vectors(), (p: nat) => [1.0], Untouched(),
                  (p: nat) => LiveIds(1, n, {p})),
            LiveIds(1, n + 1, {n + 1}), 16, (v: seq<real>) => Padded(v), (pub: Val<seq<real>>) => Ct([], []),
            (p: nat) => [1.0, 2.0, 3.0])
  }

  lemma {:induction false} PlusTimes(a: seq<real>, b: seq<real>, c: seq<real>)
    ensures Plus(a, b) == Plus(b, a) && Times(a, b) == Times(b, a)
    ensures Plus(Plus(a, b), c) == Plus(a, Plus(b, c)) && Times(Plus(a, b), c) == Plus(Times(a, c), Times(b, c))
  {
    forall i: nat | i < 16 ensures Times(Plus(a, b), c)[i] == Plus(Times(a, c), Times(b, c))[i] {
      assert (At(a, i) + At(b, i)) * At(c, i) == At(a, i) * At(c, i) + At(b, i) * At(c, i);
    }
  }

  function Vectors(): Ring<seq<real>> { Ring((a, b) => Plus(a, b), (a, b) => Times(a, b)) }

  lemma {:induction false} VectorsCommute()
    ensures Commutative(Vectors())
  {
    hide Plus, Times;
    var r := Vectors();
    forall a, b ensures r.add(a, b) == r.add(b, a) && r.mul(a, b) == r.mul(b, a) { PlusTimes(a, b, a); }
    forall a, b, c
      ensures r.add(r.add(a, b), c) == r.add(a, r.add(b, c)) && r.mul(r.add(a, b), c) == r.add(r.mul(a, c), r.mul(b, c))
    {
      PlusTimes(a, b, c);
    }
  }

  lemma {:induction false} ExampleFaithful(n: nat)
    ensures Faithful(Example(n))
  {
    hide Plus, Times, Padded, SumTo, Added, Zeros;
    forall a, b | |b| <= |a| ensures Padded(Added(a, b)) == Plus(Padded(a), Padded(b)) { PaddedSum(a, b); }
    ZeroPadded(Joint(Example(n).c));
  }

  /** Any number of nodes from two on, with vectors of 16 places, meets all that is required above. */
  lemma {:induction false} AssumptionsCanBeMet(n: nat)
    requires 2 <= n
    ensures var m := Example(n); Lawful(m.c) && Ready(m) && Faithful(m) && 13 <= m.slots && m.c.n == n
    ensures forall i: nat :: |Example(n).data(i)| == 3
    ensures CanRun(Begin(Example(n), Program(Example(n))), [])
  {
    hide Program, Start, Beside, Vectors, Commutative, Faithful;
    VectorsCommute();
    ExampleFaithful(n);
    forall p: nat | 1 <= p <= n ensures Others(Example(n).c.order(p), p, n) { LiveIdsAre(1, n, {p}); }
    LiveIdsAre(1, n + 1, {n + 1});
  }

  /** Two nodes or four: the controller waits for a third node, or for keys from a third node that is not
      the last. */
  lemma {:induction false} WrongCount(n: nat, who: seq<nat>)
    requires n == 2 || n == 4
    ensures var m := Example(n);
            && Lawful(m.c) && Ready(m) && Faithful(m) && 13 <= m.slots
            && (CanRun(Begin(m, Program(m)), who) ==> !Through(Run(Begin(m, Program(m)), who), n + 1))
  {
    hide Program, Begin, Run, CanRun, Lawful, Ready, Faithful, Through;
    AssumptionsCanBeMet(n);
    var m := Example(n);
    if CanRun(Begin(m, Program(m)), who) { ControllerStuck(m, (c: Cell) => Text, who); }
  }

  lemma {:induction false} PaddedSum(a: seq<real>, b: seq<real>)
    requires |b| <= |a|
    ensures Padded(Added(a, b)) == Plus(Padded(a), Padded(b))
  {}

  lemma {:induction false} ZeroPadded(s: seq<real>)
    ensures Plus([], Times(s, [])) == Padded(Zeros(16))
  {}
}

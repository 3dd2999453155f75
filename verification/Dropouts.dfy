/** A whole run of the threshold demo over the peer-to-peer framework, with parties that drop out
    before they send their partial decryption and the recovery of what they would have sent. */
module Dropouts {
  import opened KeyAlgebra
  import opened Network
  import opened Phases
  import opened Patterns
  import opened JointKeys
  import opened JointRuns
  import opened KeyTheorems

  /** What a run depends on besides the set-up: the operation, the share each party deals to each
      other one, encryption under the joint key, homomorphic evaluation, who drops out, and the
      library's recovery of a secret from shares. */
  datatype Demo<!T> = Demo(c: Setup<T>, op: Operation, share: (nat, nat) -> T, encrypt: (nat, Val<T>) -> Val<T>,
                           evaluate: (Val<T>, map<nat, Val<T>>) -> Val<T>, dropped: set<nat>, recover: map<nat, T> -> T)

  function Threshold(n: nat): nat { n / 2 + 1 }

  // ---- what is sent and kept ----

  function GetText<T>(): Node<T> -> Val<T> { (k: Node<T>) => Text }
  function Ignore<T>(): (Node<T>, Val<T>) -> Node<T> { (k: Node<T>, v: Val<T>) => k }
  function Same<T>(): Node<T> -> Node<T> { (k: Node<T>) => k }
  function DealtShare<T>(d: Demo<T>): (nat, nat) -> Val<T> { (a: nat, b: nat) => Poly(d.share(a, b)) }
  function KeepShare<T>(): nat -> (Node<T>, Val<T>) -> Node<T> {
    (i: nat) => (k: Node<T>, v: Val<T>) => if v.Poly? then k.(recdShares := k.recdShares[i := v.p]) else k
  }
  function EncryptOwn<T>(d: Demo<T>): nat -> Node<T> -> Node<T> {
    (p: nat) => (k: Node<T>) => k.(cipher := d.encrypt(p, k.finalPub), ciphers := k.ciphers[p := d.encrypt(p,
        k.finalPub)])
  }
  function GetCipher<T>(): Node<T> -> Val<T> { (k: Node<T>) => k.cipher }
  function KeepCipher<T>(): nat -> (Node<T>, Val<T>) -> Node<T> {
    (i: nat) => (k: Node<T>, v: Val<T>) => k.(ciphers := k.ciphers[i := v])
  }
  function OpKey<T>(op: Operation, k: Node<T>): Val<T> {
    match op case Multiply => k.evalMultFinal case Add => Text case VectorSum => k.evalSumFinal
  }
  function ComputeOwn<T>(d: Demo<T>): nat -> Node<T> -> Node<T> {
    (p: nat) => (k: Node<T>) =>
      var result := d.evaluate(OpKey(d.op, k), k.ciphers);
      var partial := PartialOf(d.c.ring, result, d.c.secret, p);
      k.(result := result, partial := partial, slots := k.slots[p := partial])
  }
  function GetPartial<T>(): Node<T> -> Val<T> { (k: Node<T>) => k.partial }
  function KeepSlot<T>(): nat -> (Node<T>, Val<T>) -> Node<T> {
    (i: nat) => (k: Node<T>, v: Val<T>) => k.(slots := k.slots[i := v])
  }
  /** Node 1 begins with its own share of the dropped party's secret. */
  function OwnShare<T>(i: nat): Node<T> -> Node<T> {
    (k: Node<T>) => if i in k.recdShares then k.(recoveryShares := k.recoveryShares[1 := k.recdShares[i]]) else k
  }
  function SendShare<T>(i: nat): Node<T> -> Val<T> {
    (k: Node<T>) => if i in k.recdShares then Poly(k.recdShares[i]) else Garbage
  }
  function KeepRecovery<T>(): nat -> (Node<T>, Val<T>) -> Node<T> {
    (j: nat) => (k: Node<T>, v: Val<T>) => if v.Poly? then k.(recoveryShares := k.recoveryShares[j := v.p]) else k
  }
  function Recover<T>(d: Demo<T>, i: nat): Node<T> -> Node<T> {
    (k: Node<T>) => k.(slots := k.slots[i := DecryptMain(d.c.ring, k.result, d.recover(k.recoveryShares))])
  }
  function GetSlot<T>(i: nat): Node<T> -> Val<T> { (k: Node<T>) => if i in k.slots then k.slots[i] else Garbage }
  function SetSlot<T>(i: nat): (Node<T>, Val<T>) -> Node<T> { (k: Node<T>, v: Val<T>) => k.(slots := k.slots[i := v]) }
  function FuseOwn<T>(d: Demo<T>): nat -> Node<T> -> Node<T> {
    (p: nat) => (k: Node<T>) => k.(plaintext := Fusion(d.c.ring, k.slots, d.c.n))
  }

  // ---- where each stage takes the parties ----

  /** val(j) at each index j of i..n outside `skip`. */
  function Upwards<A>(i: nat, n: nat, skip: set<nat>, val: nat -> A): map<nat,
      A> { map j: nat | i <= j <= n && j !in skip :: val(j) }

  lemma {:induction false} UpwardsStep<A>(m: map<nat, A>, i: nat, n: nat, skip: set<nat>, val: nat -> A)
    ensures i > n ==> m + Upwards(i, n, skip, val) == m
    ensures i <= n ==> m + Upwards(i, n, skip, val) == (if i in skip then m else m[i := val(i)]) + Upwards(i + 1, n,
             skip, val)
  {}

  lemma {:induction false} UpwardsWith<A>(p: nat, n: nat, skip: set<nat>, val: nat -> A)
    requires 1 <= p <= n && p !in skip
    ensures map[p := val(p)] + Upwards(1, n, {p} + skip, val) == Upwards(1, n, skip, val)
  {}

  function ShareTo<T>(d: Demo<T>, p: nat): nat -> T { (j: nat) => d.share(j, p) }
  function SharesFor<T>(d: Demo<T>, p: nat): map<nat, T> { Upwards(1, d.c.n, {p}, ShareTo(d, p)) }
  function CipherOf<T>(d: Demo<T>): nat -> Val<T> { (p: nat) => d.encrypt(p, PubOf(d.c)(d.c.n)) }
  function AllCiphers<T>(d: Demo<T>): map<nat, Val<T>> { Upwards(1, d.c.n, {}, CipherOf(d)) }
  /** The evaluation key of the joint secret that the operation needs. */
  function JointOpKey<T(==)>(d: Demo<T>): Val<T> {
    match d.op case Multiply => BwdOf(d.c)(1) case Add => Text case VectorSum => Sum1Of(d.c)(d.c.n)
  }
  function Result<T(==)>(d: Demo<T>): Val<T> { d.evaluate(JointOpKey(d), AllCiphers(d)) }
  function Partials<T(==)>(d: Demo<T>): nat -> Val<T> { (p: nat) => PartialOf(d.c.ring, Result(d), d.c.secret, p) }
  function AliveSlots<T(==)>(d: Demo<T>): map<nat, Val<T>> { Upwards(1, d.c.n, d.dropped, Partials(d)) }

  function Blank<T>(): Node<T> {
    Node(Text, Text, Text, Text, Text, Text, Text, Text, Text, map[], Text, map[], Text, map[], Text, map[], Text)
  }
  function AtStart<T>(): Nodes<T> { (p: nat) => Blank() }
  function WithShares<T>(d: Demo<T>): Nodes<T> {
    (p: nat) => AfterPub(d.c, AtStart())(p).(recdShares := SharesFor(d, p))
  }
  function WithKeys<T(==)>(d: Demo<T>): Nodes<T> {
    match d.op case Multiply => AfterMult(d.c, WithShares(d)) case Add => WithShares(d) case VectorSum => AfterSum(d.c,
        WithShares(d))
  }
  function WithCipher<T(==)>(d: Demo<T>): Nodes<T> {
    (p: nat) => WithKeys(d)(p).(cipher := CipherOf(d)(p), ciphers := map[p := CipherOf(d)(p)])
  }
  function WithCiphers<T(==)>(d: Demo<T>): Nodes<T> { (p: nat) => WithCipher(d)(p).(ciphers := AllCiphers(d)) }
  function WithPartial<T(==)>(d: Demo<T>): Nodes<T> {
    (p: nat) => if p in d.dropped then WithCiphers(d)(p)
                else WithCiphers(d)(p).(result := Result(d), partial := Partials(d)(p),
                    slots := map[p := Partials(d)(p)])
  }
  function WithPartials<T(==)>(d: Demo<T>): Nodes<T> {
    (p: nat) => if p in d.dropped then WithPartial(d)(p) else WithPartial(d)(p).(slots := AliveSlots(d))
  }

  // ---- the stages up to the partial decryptions ----

  function SyncAll<T>(d: Demo<T>): nat -> Code<T> {
    (p: nat) => EveryoneCode(d.c.n, d.c.order(p), {}, p, "synchronize msg", GetText(), Each(Ignore()))
  }
  function SyncPlan<T>(d: Demo<T>, lo: nat): nat -> Plan<T> {
    (p: nat) => EveryonePlan(d.c.n, d.c.order(p), {}, lo, p, "synchronize msg", Always(Text))
  }

  lemma {:induction false} IgnoredAll<T>(k: Node<T>, i: nat, n: nat, skip: set<nat>, val: nat -> Val<T>)
    ensures Stored(k, i, n, skip, val, Each(Ignore())) == k
    decreases n + 1 - i
  {
    if i <= n { IgnoredAll(k, i + 1, n, skip, val); }
  }

  lemma {:induction false} SyncPhase<T>(d: Demo<T>, entry: Cell -> Val<T>, lo: nat, pre: Nodes<T>)
    requires Sound(d.c)
    ensures Phase(d.c.n, entry, lo, lo + 2, {}, SyncAll(d), SyncPlan(d, lo), pre, pre)
  {
    hide Phase, EveryoneCode, EveryonePlan, Stored;
    forall p: nat ensures Stored(pre(p), 1, d.c.n, {p} + {}, Always(Text), Each(Ignore())) == pre(p) {
      IgnoredAll(pre(p), 1, d.c.n, {p} + {}, Always(Text));
    }
    EveryonePhase(d.c.n, entry, lo, d.c.order, {}, "synchronize msg", GetText(), Each(Ignore()), Always(Text), pre, pre,
        SyncAll(d), SyncPlan(d, lo));
  }

  function ContextCast<T>(d: Demo<T>): nat -> Code<T> {
    (p: nat) => BroadcastCode(1, d.c.order(1), p, "cryptocontext", Same(), GetText(), Ignore())
  }
  function ContextPlan<T>(d: Demo<T>, lo: nat): nat -> Plan<T> {
    (p: nat) => BroadcastPlan(1, d.c.order(1), lo, p, Msg("cryptocontext", Text))
  }

  lemma {:induction false} ContextPhase<T>(d: Demo<T>, entry: Cell -> Val<T>, lo: nat, pre: Nodes<T>)
    requires Sound(d.c)
    ensures Phase(d.c.n, entry, lo, lo + 3, {}, ContextCast(d), ContextPlan(d, lo), pre, pre)
  {
    hide Phase, BroadcastCode, BroadcastPlan;
    forall p: nat | 1 <= p <= d.c.n
      ensures BroadcastStates(1, p, Same(), GetText(), Ignore(), Text, pre(p), pre(p)) {}
    BroadcastPhase(d.c.n, entry, lo, 1, d.c.order(1), "cryptocontext", Same(), GetText(), Ignore(), Text, pre, pre,
        ContextCast(d), ContextPlan(d, lo));
  }

  function ShareAll<T>(d: Demo<T>): nat -> Code<T> {
    (p: nat) => ExchangeCode(1, d.c.n, p, "secretshare", DealtShare(d), KeepShare())
  }
  function SharePlan<T>(d: Demo<T>, lo: nat): nat -> Plan<T> {
    (p: nat) => ExchangePlan(1, d.c.n, lo, p, "secretshare", DealtShare(d))
  }

  /** The share from each party i..n, at index i. */
  lemma {:induction false} SharesExchanged<T>(d: Demo<T>, k: Node<T>, i: nat, p: nat)
    requires 1 <= i <= d.c.n + 1
    ensures Exchanged(k, i, d.c.n, p, DealtShare(d), KeepShare())
            == k.(recdShares := k.recdShares + Upwards(i, d.c.n, {p}, ShareTo(d, p)))
    decreases d.c.n + 1 - i
  {
    hide Upwards;
    UpwardsStep(k.recdShares, i, d.c.n, {p}, ShareTo(d, p));
    if i <= d.c.n {
      SharesExchanged(d, if i == p then k else KeepShare()(i)(k, DealtShare(d)(i, p)), i + 1, p);
    }
  }

  lemma {:induction false} SharePhase<T>(d: Demo<T>, entry: Cell -> Val<T>, lo: nat)
    ensures Phase(d.c.n, entry, lo, lo + 4 * d.c.n + 2, {}, ShareAll(d), SharePlan(d, lo), AfterPub(d.c, AtStart()),
            WithShares(d))
  {
    hide Phase, ExchangeCode, ExchangePlan, Exchanged, KeepShare, Upwards;
    var pre := AfterPub(d.c, AtStart());
    forall p: nat | 1 <= p <= d.c.n ensures WithShares(d)(p) == Exchanged(pre(p), 1, d.c.n, p, DealtShare(d),
        KeepShare()) {
      SharesExchanged(d, pre(p), 1, p);
      assert pre(p).recdShares == WithPub(d.c, AtStart())(p).recdShares == map[];
      assert map[] + SharesFor(d, p) == SharesFor(d, p);
    }
    ExchangePhase(d.c.n, entry, lo, "secretshare", DealtShare(d), KeepShare(), pre, WithShares(d), ShareAll(d),
        SharePlan(d, lo));
  }

  function NoCode<T>(): nat -> Code<T> { (p: nat) => [] }
  function NoPlan<T>(): nat -> Plan<T> { (p: nat) => [] }

  lemma {:induction false} NothingPhase<L, V>(n: nat, entry: Cell -> V, lo: nat, hi: nat, pre: nat -> L,
      code: nat -> seq<Instr<L, V>>, plan: nat -> seq<Ranked<V>>)
    requires forall p: nat | 1 <= p <= n :: code(p) == [] && plan(p) == []
    ensures Phase(n, entry, lo, hi, {}, code, plan, pre, pre)
  {
    forall p: nat | 1 <= p <= n ensures PartyPhase(n, entry, lo, hi, code(p), plan(p), pre(p), pre(p)) {
      NonePhase(n, entry, lo, hi, pre(p));
    }
  }

  function KeyStage<T(==)>(d: Demo<T>): nat -> Code<T> {
    match d.op case Multiply => MultGen(d.c) case Add => NoCode() case VectorSum => SumGen(d.c)
  }
  function KeyStagePlan<T(==)>(d: Demo<T>, lo: nat): nat -> Plan<T> {
    match d.op case Multiply => MultGenPlan(d.c, lo) case Add => NoPlan() case VectorSum => SumGenPlan(d.c, lo)
  }

  lemma {:induction false} KeyStagePhase<T>(d: Demo<T>, entry: Cell -> Val<T>, lo: nat)
    requires Sound(d.c)
    ensures Phase(d.c.n, entry, lo, lo + 2 * d.c.n + 8, {}, KeyStage(d), KeyStagePlan(d, lo), WithShares(d),
            WithKeys(d))
  {
    hide Phase, MultGen, MultGenPlan, SumGen, SumGenPlan, AfterMult, AfterSum, WithShares;
    match d.op
    case Multiply =>
      MultGenPhase(d.c, entry, lo, WithShares(d));
    case Add =>
      NothingPhase(d.c.n, entry, lo, lo + 2 * d.c.n + 8, WithShares(d), KeyStage(d), KeyStagePlan(d, lo));
    case VectorSum =>
      SumGenPhase(d.c, entry, lo, WithShares(d));
      LaterPhase(d.c.n, entry, lo, lo + 2 * d.c.n + 5, lo + 2 * d.c.n + 8, {}, SumGen(d.c), SumGenPlan(d.c, lo),
          WithShares(d), WithKeys(d));
  }

  function EncryptAll<T>(d: Demo<T>): nat -> Code<T> { (p: nat) => LocalCode({}, p, EncryptOwn(d)) }
  function LocalPlanOf<T>(dead: set<nat>, lo: nat): nat -> Plan<T> { (p: nat) => LocalPlan(dead, lo, p) }

  /** What a later stage needs of what an earlier one left. */
  ghost predicate Ready<T>(d: Demo<T>, p: nat, k: Node<T>) {
    && k.finalPub == PubOf(d.c)(d.c.n) && k.recdShares == SharesFor(d, p)
    && k.ciphers == map[] && k.slots == map[] && k.recoveryShares == map[]
  }

  lemma {:induction false} SharesReady<T>(d: Demo<T>, p: nat)
    ensures Ready(d, p, WithShares(d)(p))
  {
    hide SharesFor;
    assert WithPub(d.c, AtStart())(p) == Blank().(pubKey := PubOf(d.c)(p));
    assert AfterPub(d.c, AtStart())(p) == WithPub(d.c, AtStart())(p).(finalPub := PubOf(d.c)(d.c.n));
    assert WithShares(d)(p) == AfterPub(d.c, AtStart())(p).(recdShares := SharesFor(d, p));
  }

  lemma {:induction false} MultReady<T>(d: Demo<T>, p: nat)
    requires d.op == Multiply
    ensures Ready(d, p, WithKeys(d)(p)) && OpKey(d.op, WithKeys(d)(p)) == JointOpKey(d)
  {
    hide SharesFor, WithShares;
    var k := WithShares(d);
    SharesReady(d, p);
    assert WithEval(d.c, k)(p) == k(p).(evalKey := FwdOf(d.c)(p));
    assert WithAll(d.c, k)(p) == WithEval(d.c, k)(p).(evalKeyAll := FwdOf(d.c)(d.c.n));
    assert WithMix(d.c, k)(p) == WithAll(d.c, k)(p).(mixKey := BwdOf(d.c)(p));
    assert WithKeys(d)(p) == WithMix(d.c, k)(p).(evalMultFinal := BwdOf(d.c)(1));
  }

  lemma {:induction false} KeysReady<T>(d: Demo<T>, p: nat)
    ensures Ready(d, p, WithKeys(d)(p)) && OpKey(d.op, WithKeys(d)(p)) == JointOpKey(d)
  {
    hide SharesFor, WithShares, WithMix;
    var k := WithShares(d);
    SharesReady(d, p);
    if d.op == Multiply { MultReady(d, p); }
    if d.op == VectorSum {
      assert WithSum(d.c, k)(p) == k(p).(sumKey0 := Sum0Of(d.c)(p), sumKey1 := Sum1Of(d.c)(p));
      assert WithKeys(d)(p) == WithSum(d.c, k)(p).(evalSumFinal := Sum1Of(d.c)(d.c.n));
    }
  }

  lemma {:induction false} EncryptPhase<T>(d: Demo<T>, entry: Cell -> Val<T>, lo: nat)
    ensures Phase(d.c.n, entry, lo, lo + 1, {}, EncryptAll(d), LocalPlanOf({}, lo), WithKeys(d), WithCipher(d))
  {
    hide Phase, WithKeys, PubOf, SharesFor, OpKey, JointOpKey;
    forall p: nat | 1 <= p <= d.c.n ensures WithCipher(d)(p) == EncryptOwn(d)(p)(WithKeys(d)(p)) {
      KeysReady(d, p);
      assert WithKeys(d)(p).ciphers[p := CipherOf(d)(p)] == map[p := CipherOf(d)(p)];
    }
    LocalPhase(d.c.n, entry, lo, {}, EncryptOwn(d), WithKeys(d), WithCipher(d), EncryptAll(d), LocalPlanOf({}, lo));
  }

  function CipherAll<T>(d: Demo<T>): nat -> Code<T> {
    (p: nat) => EveryoneCode(d.c.n, d.c.order(p), {}, p, "ciphertext", GetCipher(), KeepCipher())
  }
  function CipherPlan<T>(d: Demo<T>, lo: nat): nat -> Plan<T> {
    (p: nat) => EveryonePlan(d.c.n, d.c.order(p), {}, lo, p, "ciphertext", CipherOf(d))
  }

  lemma {:induction false} CiphersStored<T>(k: Node<T>, i: nat, n: nat, skip: set<nat>, val: nat -> Val<T>)
    ensures Stored(k, i, n, skip, val, KeepCipher()) == k.(ciphers := k.ciphers + Upwards(i, n, skip, val))
    decreases n + 1 - i
  {
    hide Upwards;
    UpwardsStep(k.ciphers, i, n, skip, val);
    if i <= n {
      CiphersStored(if i in skip then k else KeepCipher()(i)(k, val(i)), i + 1, n, skip, val);
    }
  }

  lemma {:induction false} CipherPhase<T>(d: Demo<T>, entry: Cell -> Val<T>, lo: nat)
    requires Sound(d.c)
    ensures Phase(d.c.n, entry, lo, lo + 2, {}, CipherAll(d), CipherPlan(d, lo), WithCipher(d), WithCiphers(d))
  {
    hide Phase, EveryoneCode, EveryonePlan, Stored, WithKeys, Upwards;
    forall p: nat | 1 <= p <= d.c.n ensures WithCiphers(d)(p) == Stored(WithCipher(d)(p), 1, d.c.n, {p} + {},
        CipherOf(d), KeepCipher()) {
      CiphersStored(WithCipher(d)(p), 1, d.c.n, {p} + {}, CipherOf(d));
      UpwardsWith(p, d.c.n, {}, CipherOf(d));
    }
    EveryonePhase(d.c.n, entry, lo, d.c.order, {}, "ciphertext", GetCipher(), KeepCipher(), CipherOf(d), WithCipher(d),
        WithCiphers(d), CipherAll(d), CipherPlan(d, lo));
  }

  // ---- from here on without the parties that dropped out ----

  function ComputeAll<T(==)>(d: Demo<T>): nat -> Code<T> { (p: nat) => LocalCode(d.dropped, p, ComputeOwn(d)) }

  lemma {:induction false} ComputePhase<T>(d: Demo<T>, entry: Cell -> Val<T>, lo: nat)
    ensures Phase(d.c.n, entry, lo, lo + 1, {}, ComputeAll(d), LocalPlanOf(d.dropped, lo), WithCiphers(d),
            WithPartial(d))
  {
    hide Phase, WithKeys, PartialOf, AllCiphers, JointOpKey, LocalCode, LocalPlan, SharesFor;
    forall p: nat | 1 <= p <= d.c.n
      ensures WithPartial(d)(p) == if p in d.dropped then WithCiphers(d)(p) else ComputeOwn(d)(p)(WithCiphers(d)(p))
    {
      KeysReady(d, p);
      var k := WithCiphers(d)(p);
      assert k == WithCipher(d)(p).(ciphers := AllCiphers(d));
      assert OpKey(d.op, k) == OpKey(d.op, WithKeys(d)(p));
      assert k.slots[p := Partials(d)(p)] == map[p := Partials(d)(p)];
    }
    LocalPhase(d.c.n, entry, lo, d.dropped, ComputeOwn(d), WithCiphers(d), WithPartial(d), ComputeAll(d),
        LocalPlanOf(d.dropped, lo));
  }

  function PartialAll<T>(d: Demo<T>): nat -> Code<T> {
    (p: nat) => EveryoneCode(d.c.n, d.c.order(p), d.dropped, p, "partialciphertext", GetPartial(), KeepSlot())
  }
  function PartialPlan<T(==)>(d: Demo<T>, lo: nat): nat -> Plan<T> {
    (p: nat) => EveryonePlan(d.c.n, d.c.order(p), d.dropped, lo, p, "partialciphertext", Partials(d))
  }

  lemma {:induction false} SlotsStored<T>(k: Node<T>, i: nat, n: nat, skip: set<nat>, val: nat -> Val<T>)
    ensures Stored(k, i, n, skip, val, KeepSlot()) == k.(slots := k.slots + Upwards(i, n, skip, val))
    decreases n + 1 - i
  {
    hide Upwards;
    UpwardsStep(k.slots, i, n, skip, val);
    if i <= n {
      SlotsStored(if i in skip then k else KeepSlot()(i)(k, val(i)), i + 1, n, skip, val);
    }
  }

  lemma {:induction false} PartialPhase<T>(d: Demo<T>, entry: Cell -> Val<T>, lo: nat)
    requires Sound(d.c)
    ensures Phase(d.c.n, entry, lo, lo + 2, d.dropped, PartialAll(d), PartialPlan(d, lo), WithPartial(d),
            WithPartials(d))
  {
    hide Phase, EveryoneCode, EveryonePlan, Stored, WithCiphers, PartialOf, Upwards;
    forall p: nat | 1 <= p <= d.c.n
      ensures p !in d.dropped ==> Partials(d)(p) == GetPartial()(WithPartial(d)(p))
      ensures WithPartials(d)(p) == if p in d.dropped then WithPartial(d)(p) else Stored(WithPartial(d)(p), 1, d.c.n,
               {p} + d.dropped, Partials(d), KeepSlot())
    {
      if p !in d.dropped {
        SlotsStored(WithPartial(d)(p), 1, d.c.n, {p} + d.dropped, Partials(d));
        UpwardsWith(p, d.c.n, d.dropped, Partials(d));
      }
    }
    EveryonePhase(d.c.n, entry, lo, d.c.order, d.dropped, "partialciphertext", GetPartial(), KeepSlot(), Partials(d),
        WithPartial(d), WithPartials(d), PartialAll(d), PartialPlan(d, lo));
  }

  // ---- recovery of the dropped parties' partial decryptions, by node 1 ----

  /** The ids of i..n that dropped out, upwards. */
  function Nacks(i: nat, n: nat, dropped: set<nat>): (r: seq<nat>)
    ensures forall j: nat :: j in r <==> i <= j <= n && j in dropped
    decreases n + 1 - i
  {
    if i > n then [] else (if i in dropped then [i] else []) + Nacks(i + 1, n, dropped)
  }

  /** The collection loop: as long as fewer than `threshold` shares are counted, one more pass over
      all peers alive. With no peer alive the loop spins for ever; here it waits for a message to
      itself, which nobody sends. */
  function Collect<L, V>(n: nat, skip: set<nat>, kind: string, store: nat -> (L, V) -> L, count: nat,
      threshold: nat): seq<Instr<L, V>>
    decreases threshold - count
  {
    if count >= threshold then []
    else if |LiveIds(1, n, skip)| == 0 then [Recv(1, kind, store(1))]
    else RecvAll(1, n, skip, kind, store) + Collect(n, skip, kind, store, count + |LiveIds(1, n, skip)|, threshold)
  }

  function RecoverOne<T>(d: Demo<T>, i: nat): nat -> Code<T> {
    (p: nat) =>
      if p in d.dropped then []
      else if p == 1 then
        [Let(OwnShare(i))] + Collect(d.c.n, {1} + d.dropped, "secretsharerecovery", KeepRecovery(), 1, Threshold(d.c.n))
        + ([Let(Recover(d, i))] + SendAll(LiveIds(1, d.c.n, {1} + d.dropped), "abortspartialciphertext", GetSlot(i)))
      else [Send(1, "secretsharerecovery", SendShare(i)), Recv(1, "abortspartialciphertext", SetSlot(i))]
  }

  function RecoverAll<T>(d: Demo<T>, ids: seq<nat>): nat -> Code<T> {
    if |ids| == 0 then NoCode() else Then(RecoverOne(d, ids[0]), RecoverAll(d, ids[1..]))
  }

  function ShareBy<T>(d: Demo<T>, i: nat): nat -> T { (j: nat) => d.share(i, j) }
  function ShareMsg<T>(d: Demo<T>, i: nat): nat -> Val<T> { (j: nat) => Poly(d.share(i, j)) }
  function Recovered<T(==)>(d: Demo<T>, i: nat): Val<T> { DecryptMain(d.c.ring, Result(d), d.c.secret(i)) }

  function AfterOne<T(==)>(d: Demo<T>, i: nat, pre: Nodes<T>): Nodes<T> {
    (p: nat) =>
      if p in d.dropped then pre(p)
      else if p == 1 then pre(1).(recoveryShares := Upwards(1, d.c.n, d.dropped, ShareBy(d, i)),
          slots := pre(1).slots[i := Recovered(d, i)])
      else pre(p).(slots := pre(p).slots[i := Recovered(d, i)])
  }

  function AfterAll<T(==)>(d: Demo<T>, ids: seq<nat>, pre: Nodes<T>): Nodes<T>
    decreases |ids|
  {
    if |ids| == 0 then pre else AfterAll(d, ids[1..], AfterOne(d, ids[0], pre))
  }

  function OnePlan<T(==)>(d: Demo<T>, i: nat, lo: nat): nat -> Plan<T> {
    (p: nat) => GatherPlan(d.c.n, d.dropped, lo, p, "secretsharerecovery", ShareMsg(d, i),
        Msg("abortspartialciphertext", Recovered(d, i)))
  }

  function AllPlan<T(==)>(d: Demo<T>, ids: seq<nat>, lo: nat): nat -> Plan<T>
    decreases |ids|
  {
    if |ids| == 0 then NoPlan() else Then(OnePlan(d, ids[0], lo), AllPlan(d, ids[1..], lo + 5))
  }

  /** Enough parties are left, node 1 among them, and the dropped ones are parties. */
  ghost predicate EnoughLeft<T>(d: Demo<T>) {
    && 2 <= d.c.n && 1 !in d.dropped && (forall i | i in d.dropped :: 1 <= i <= d.c.n)
    && d.c.n - |d.dropped| >= Threshold(d.c.n)
  }

  ghost predicate TrueShares<T>(d: Demo<T>, i: nat, m: map<nat, T>) {
    forall j: nat | j in m :: 1 <= j <= d.c.n && m[j] == d.share(i, j)
  }

  /** What the library promises: true shares in sufficient number give the secret back. */
  ghost predicate Recovers<T(!new)>(d: Demo<T>) {
    forall i: nat, m | i in d.dropped && TrueShares(d, i, m) && |m| >= Threshold(d.c.n) :: d.recover(m) == d.c.secret(i)
  }

  lemma {:induction false} LiveCount(i: nat, n: nat, skip: set<nat>)
    requires i <= n + 1 && forall j | j in skip :: i <= j <= n
    ensures |LiveIds(i, n, skip)| + |skip| == n + 1 - i
    decreases n + 1 - i
  {
    if i <= n {
      var rest := skip - {i};
      LiveCount(i + 1, n, rest);
      LiveIdsSame(i + 1, n, skip, rest);
      if i in skip {
        assert |skip| == |rest| + 1;
      } else {
        assert rest == skip;
      }
    } else {
      assert skip == {};
    }
  }

  lemma {:induction false} LiveIdsSame(i: nat, n: nat, skip: set<nat>, skip': set<nat>)
    requires forall j: nat | i <= j <= n :: j in skip <==> j in skip'
    ensures LiveIds(i, n, skip) == LiveIds(i, n, skip')
    decreases n + 1 - i
  {
    if i <= n { LiveIdsSame(i + 1, n, skip, skip'); }
  }

  /** When enough parties are left, one pass over the peers collects enough shares. */
  lemma {:induction false} OnePass<L, V>(n: nat, dropped: set<nat>, kind: string, store: nat -> (L, V) -> L)
    requires 2 <= n && 1 !in dropped && (forall j | j in dropped :: 1 <= j <= n) && n - |dropped| >= Threshold(n)
    ensures Collect(n, {1} + dropped, kind, store, 1, Threshold(n)) == RecvAll(1, n, {1} + dropped, kind, store)
  {
    var skip := {1} + dropped;
    LiveCount(1, n, skip);
    assert |skip| == 1 + |dropped|;
    assert Collect(n, skip, kind, store, 1 + |LiveIds(1, n, skip)|, Threshold(n)) == [];
  }

  lemma {:induction false} UpwardsSize<A>(n: nat, dropped: set<nat>, val: nat -> A)
    requires forall j | j in dropped :: 1 <= j <= n
    ensures |Upwards(1, n, dropped, val)| + |dropped| == n
  {
    LiveCount(1, n, dropped);
    LiveIdsAre(1, n, dropped);
    DistinctSize(LiveIds(1, n, dropped), Upwards(1, n, dropped, val).Keys);
  }

  lemma {:induction false} DistinctSize(s: seq<nat>, keys: set<nat>)
    requires Distinct(s) && forall j: nat :: j in s <==> j in keys
    ensures |keys| == |s|
    decreases |s|
  {
    if |s| != 0 {
      DistinctSize(s[1..], keys - {s[0]});
    } else {
      assert keys == {};
    }
  }

  lemma {:induction false} RecoveryStored<T>(d: Demo<T>, k: Node<T>, j: nat, skip: set<nat>, i: nat)
    ensures Stored(k, j, d.c.n, skip, ShareMsg(d, i), KeepRecovery())
            == k.(recoveryShares := k.recoveryShares + Upwards(j, d.c.n, skip, ShareBy(d, i)))
    decreases d.c.n + 1 - j
  {
    hide Upwards;
    UpwardsStep(k.recoveryShares, j, d.c.n, skip, ShareBy(d, i));
    if j <= d.c.n {
      RecoveryStored(d, if j in skip then k else KeepRecovery()(j)(k, ShareMsg(d, i)(j)), j + 1, skip, i);
    }
  }

  /** The state in which a survivor can take part in a recovery: shares left over from an earlier
      recovery may still be there, but only for parties that are alive. */
  ghost predicate CanRecover<T>(d: Demo<T>, p: nat, k: Node<T>) {
    k.recdShares == SharesFor(d, p) && k.result == Result(d) && forall j | j in k.recoveryShares ::
        1 <= j <= d.c.n && j !in d.dropped
  }

  lemma {:induction false} Overwritten<A>(m: map<nat, A>, n: nat, dropped: set<nat>, val: nat -> A)
    requires 1 <= n && 1 !in dropped && forall j | j in m :: 1 <= j <= n && j !in dropped
    ensures m[1 := val(1)] + Upwards(1, n, {1} + dropped, val) == Upwards(1, n, dropped, val)
  {}

  /** Node 1's map holds exactly the true shares of party i when it recovers party i. */
  lemma {:induction false} FreshShares<T>(d: Demo<T>, i: nat, k: Node<T>)
    requires EnoughLeft(d) && i in d.dropped && CanRecover(d, 1, k)
    ensures Stored(OwnShare(i)(k), 1, d.c.n, {1} + d.dropped, ShareMsg(d, i), KeepRecovery())
            == k.(recoveryShares := Upwards(1, d.c.n, d.dropped, ShareBy(d, i)))
  {
    hide Stored;
    assert i in k.recdShares && k.recdShares[i] == ShareBy(d, i)(1);
    RecoveryStored(d, OwnShare(i)(k), 1, {1} + d.dropped, i);
    Overwritten(k.recoveryShares, d.c.n, d.dropped, ShareBy(d, i));
  }

  lemma {:induction false} HubRecovers<T(!new)>(d: Demo<T>, i: nat, k: Node<T>)
    requires EnoughLeft(d) && Recovers(d) && i in d.dropped && CanRecover(d, 1, k)
    ensures Recover(d, i)(Stored(OwnShare(i)(k), 1, d.c.n, {1} + d.dropped, ShareMsg(d, i), KeepRecovery()))
            == k.(recoveryShares := Upwards(1, d.c.n, d.dropped, ShareBy(d, i)), slots := k.slots[i := Recovered(d, i)])
  {
    hide Stored;
    FreshShares(d, i, k);
    var m := Upwards(1, d.c.n, d.dropped, ShareBy(d, i));
    UpwardsSize(d.c.n, d.dropped, ShareBy(d, i));
    assert TrueShares(d, i, m);
  }

  lemma {:induction false} OneIsGather<T>(d: Demo<T>, i: nat, p: nat)
    requires EnoughLeft(d)
    ensures RecoverOne(d, i)(p)
            == GatherCode(d.c.n, d.dropped, p, "secretsharerecovery", OwnShare(i), Each(SendShare(i)), KeepRecovery(),
            Recover(d, i), "abortspartialciphertext", GetSlot(i), Each(SetSlot(i)))
  {
    hide Collect, RecvAll, SendAll, LiveIds;
    OnePass<Node<T>, Val<T>>(d.c.n, d.dropped, "secretsharerecovery", KeepRecovery());
  }

  lemma {:induction false} OnePhaseOf<T(!new)>(d: Demo<T>, entry: Cell -> Val<T>, i: nat, lo: nat, pre: Nodes<T>)
    requires EnoughLeft(d) && Recovers(d) && i in d.dropped
    requires forall p: nat | 1 <= p <= d.c.n && p !in d.dropped :: CanRecover(d, p, pre(p))
    ensures Phase(d.c.n, entry, lo, lo + 5, {}, RecoverOne(d, i), OnePlan(d, i, lo), pre, AfterOne(d, i, pre))
  {
    hide Phase, RecoverOne, GatherCode, GatherPlan, Stored, Recovered, Recover, Upwards, CanRecover, Recovers, Result;
    forall p: nat | 1 <= p <= d.c.n
      ensures RecoverOne(d, i)(p)
              == GatherCode(d.c.n, d.dropped, p, "secretsharerecovery", OwnShare(i), Each(SendShare(i)), KeepRecovery(),
              Recover(d, i), "abortspartialciphertext", GetSlot(i), Each(SetSlot(i)))
    {
      OneIsGather(d, i, p);
    }
    HubRecovers(d, i, pre(1));
    forall p: nat | 1 < p <= d.c.n && p !in d.dropped ensures ShareMsg(d, i)(p) == SendShare(i)(pre(p)) {
      PeerSends(d, i, p, pre(p));
    }
    GatherPhase(d.c.n, entry, lo, d.dropped, "secretsharerecovery", OwnShare(i), Each(SendShare(i)), KeepRecovery(),
        Recover(d, i), "abortspartialciphertext", GetSlot(i), Each(SetSlot(i)), ShareMsg(d, i),
        Msg("abortspartialciphertext", Recovered(d, i)), pre, AfterOne(d, i, pre), RecoverOne(d, i), OnePlan(d, i, lo));
  }

  lemma {:induction false} PeerSends<T>(d: Demo<T>, i: nat, p: nat, k: Node<T>)
    requires EnoughLeft(d) && i in d.dropped && p !in d.dropped && CanRecover(d, p, k)
    ensures ShareMsg(d, i)(p) == SendShare(i)(k)
  {}

  lemma {:induction false} AllPhase<T(!new)>(d: Demo<T>, entry: Cell -> Val<T>, ids: seq<nat>, lo: nat, pre: Nodes<T>)
    requires EnoughLeft(d) && Recovers(d) && forall i | i in ids :: i in d.dropped
    requires forall p: nat | 1 <= p <= d.c.n && p !in d.dropped :: CanRecover(d, p, pre(p))
    ensures Phase(d.c.n, entry, lo, lo + 5 * |ids|, {}, RecoverAll(d, ids), AllPlan(d, ids, lo), pre,
            AfterAll(d, ids, pre))
    decreases |ids|
  {
    hide Phase, RecoverOne, OnePlan, CanRecover, Recovers, AfterOne, EnoughLeft;
    if |ids| == 0 {
      NothingPhase(d.c.n, entry, lo, lo, pre, RecoverAll(d, ids), AllPlan(d, ids, lo));
    } else {
      var next := AfterOne(d, ids[0], pre);
      forall p: nat | 1 <= p <= d.c.n && p !in d.dropped ensures CanRecover(d, p, next(p)) {
        StillCanRecover(d, ids[0], p, pre);
      }
      OnePhaseOf(d, entry, ids[0], lo, pre);
      AllPhase(d, entry, ids[1..], lo + 5, next);
      PhaseThen(d.c.n, entry, lo, lo + 5, lo + 5 * |ids|, {}, {}, {}, RecoverOne(d, ids[0]), OnePlan(d, ids[0], lo),
          pre, next, RecoverAll(d, ids[1..]), AllPlan(d, ids[1..], lo + 5), AfterAll(d, ids, pre));
    }
  }

  lemma {:induction false} StillCanRecover<T>(d: Demo<T>, i: nat, p: nat, pre: Nodes<T>)
    requires p !in d.dropped && CanRecover(d, p, pre(p))
    ensures CanRecover(d, p, AfterOne(d, i, pre)(p))
  {}

  lemma {:induction false} DroppedSilent<T>(d: Demo<T>, ids: seq<nat>, lo: nat, p: nat)
    requires p in d.dropped
    ensures AllPlan(d, ids, lo)(p) == []
    decreases |ids|
  {
    if |ids| != 0 { DroppedSilent(d, ids[1..], lo + 5, p); }
  }

  /** After the recoveries a survivor's slots hold every partial decryption it had before and the
      recovered one of each id on the list. */
  lemma {:induction false} SlotsAfter<T>(d: Demo<T>, ids: seq<nat>, pre: Nodes<T>, p: nat)
    requires p !in d.dropped
    ensures var k := AfterAll(d, ids, pre)(p);
            && (forall j :: j in k.slots <==> j in pre(p).slots || j in ids)
            && (forall j | j in k.slots :: k.slots[j] == if j in ids then Recovered(d, j) else pre(p).slots[j])
    ensures var k := AfterAll(d, ids, pre)(p);
            k.finalPub == pre(p).finalPub && k.evalMultFinal == pre(p).evalMultFinal
                && k.evalSumFinal == pre(p).evalSumFinal
    decreases |ids|
  {
    hide Recovered, Upwards;
    if |ids| != 0 {
      SlotsAfter(d, ids[1..], AfterOne(d, ids[0], pre), p);
      assert AfterOne(d, ids[0], pre)(p).slots == pre(p).slots[ids[0] := Recovered(d, ids[0])];
    }
  }
}

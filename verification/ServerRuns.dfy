/** The whole program of a client of the client/server version: keys, shares and ciphertexts through
    the server's tables, then the abort loop. */
module ServerRuns {
  import Rings
  import opened KeyAlgebra
  import opened Network
  import opened Phases
  import opened Patterns
  import opened JointKeys
  import opened JointRuns
  import opened KeyTheorems
  import opened Dropouts
  import opened DropoutRuns
  import Recovery
  import opened ShamirDemo
  import Aborts = ServerAborts

  // ---- other tables beside the keys ----

  function SharesOf<T>(d: Demo<T>): nat -> Val<T> {
    (p: nat) => Shares(map j: nat | 1 <= j <= d.c.n :: d.share(p, j))
  }

  /** What the server's tables hold once everything is posted. */
  function ServerTables<T(==)>(d: Demo<T>): Cell -> Val<T> {
    (cell: Cell) =>
      match cell.table
      case SecretShares => SharesOf(d)(cell.id)
      case CipherTexts => CipherOf(d)(cell.id)
      case _ => TableOf(d.c)(cell)
  }

  /** No item touches the tables of shares or ciphertexts. */
  ghost predicate KeysOnly<V>(plan: seq<Ranked<V>>) {
    forall x | x in plan && (x.ev.Posted? || x.ev.Polled?) ::
      x.ev.cell.table != SecretShares && x.ev.cell.table != CipherTexts
  }

  lemma {:induction false} TidyToo<V>(n: nat, entry: Cell -> V, entry': Cell -> V, plan: seq<Ranked<V>>)
    requires Tidy(n, entry, plan) && KeysOnly(plan)
    requires forall cell: Cell | cell.table != SecretShares && cell.table != CipherTexts :: entry'(cell) == entry(cell)
    ensures Tidy(n, entry', plan)
    decreases |plan|
  {
    if |plan| != 0 {
      assert plan[0] in plan && forall x | x in plan[1..] :: x in plan;
      TidyToo(n, entry, entry', plan[1..]);
    }
  }

  /** A phase that touches only tables in which two servers agree is one for either. */
  lemma {:induction false} PhaseToo<L, V>(n: nat, entry: Cell -> V, entry': Cell -> V, lo: nat, hi: nat,
      code: nat -> seq<Instr<L, V>>, plan: nat -> seq<Ranked<V>>, pre: nat -> L, post: nat -> L)
    requires Phase(n, entry, lo, hi, {}, code, plan, pre, post)
    requires forall p: nat | 1 <= p <= n :: KeysOnly(plan(p))
    requires forall cell: Cell | cell.table != SecretShares && cell.table != CipherTexts :: entry'(cell) == entry(cell)
    ensures Phase(n, entry', lo, hi, {}, code, plan, pre, post)
  {
    hide KeysOnly, Tidy;
    forall p: nat | 1 <= p <= n ensures PartyPhase(n, entry', lo, hi, code(p), plan(p), pre(p), post(p)) {
      assert PartyPhase(n, entry, lo, hi, code(p), plan(p), pre(p), post(p));
      TidyToo(n, entry, entry', plan(p));
    }
  }

  // ---- the program up to the partial decryptions ----

  function PostShares<T>(d: Demo<T>): nat -> Code<T> {
    (p: nat) => [Post(Cell(SecretShares, p), (k: Node<T>) => SharesOf(d)(p))]
  }
  function PostSharesPlan<T>(d: Demo<T>, lo: nat): nat -> Plan<T> {
    (p: nat) => [Ranked(lo, Posted(Cell(SecretShares, p), SharesOf(d)(p)))]
  }

  lemma {:induction false} PostSharesPhase<T>(d: Demo<T>, lo: nat, pre: Nodes<T>)
    ensures Phase(d.c.n, ServerTables(d), lo, lo + 1, {}, PostShares(d), PostSharesPlan(d, lo), pre, pre)
  {
    hide TableOf;
    forall p: nat | 1 <= p <= d.c.n
      ensures PartyPhase(d.c.n, ServerTables(d), lo, lo + 1, PostShares(d)(p), PostSharesPlan(d, lo)(p), pre(p), pre(p))
      ensures Silent(PostSharesPlan(d, lo)(p)) && NoPolls(PostSharesPlan(d, lo)(p))
    {
      OnePhase(d.c.n, ServerTables(d), lo, lo + 1, PostShares(d)(p), PostSharesPlan(d, lo)(p), pre(p));
    }
    SilentPhase(d.c.n, ServerTables(d), lo, lo + 1, PostShares(d), PostSharesPlan(d, lo), pre, pre);
  }

  lemma {:induction false} PubPollToo<T>(d: Demo<T>, lo: nat, pre: Nodes<T>)
    requires 2 <= d.c.n
    ensures Phase(d.c.n, ServerTables(d), lo, lo + d.c.n + 2, {}, PubPoll(d.c), PollPlanOf(d.c, false, lo, PublicKeys),
            pre, AfterPub(d.c, pre))
  {
    hide Phase, PubPoll, AfterPub;
    PubPollPhase(d.c, lo, pre);
    PhaseToo(d.c.n, TableOf(d.c), ServerTables(d), lo, lo + d.c.n + 2, PubPoll(d.c),
        PollPlanOf(d.c, false, lo, PublicKeys), pre, AfterPub(d.c, pre));
  }

  function OpPoll<T(==)>(d: Demo<T>): nat -> Code<T> {
    match d.op case Multiply => MultPoll(d.c) case Add => NoCode() case VectorSum => SumPoll(d.c)
  }
  function OpPollPlan<T(==)>(d: Demo<T>, lo: nat): nat -> Plan<T> {
    match d.op case Multiply => MultPollPlan(d.c, lo) case Add => NoPlan() case VectorSum => Poll2PlanOf(d.c, lo)
  }
  function AfterOpPoll<T(==)>(d: Demo<T>, pre: Nodes<T>): Nodes<T> {
    match d.op case Multiply => AfterMult(d.c, pre) case Add => pre case VectorSum => AfterSum(d.c, pre)
  }

  lemma {:induction false} MultPollKeysOnly<T>(c: Setup<T>, lo: nat, p: nat)
    ensures KeysOnly(MultPollPlan(c, lo)(p))
  {
    var a, b := PollPlanOf(c, false, lo, EvalMultKeys)(p), PollPlanOf(c, true, lo + c.n + 2, EvalMixMultKeys)(p);
    hide TableOf;
    assert KeysOnly(a) && KeysOnly(b);
    assert MultPollPlan(c, lo)(p) == a + b;
  }

  lemma {:induction false} OpPollPhase<T>(d: Demo<T>, lo: nat, pre: Nodes<T>)
    requires 2 <= d.c.n
    ensures Phase(d.c.n, ServerTables(d), lo, lo + 2 * d.c.n + 4, {}, OpPoll(d), OpPollPlan(d, lo), pre,
            AfterOpPoll(d, pre))
  {
    hide Phase, MultPoll, MultPollPlan, SumPoll, AfterMult, AfterSum, KeysOnly;
    match d.op
    case Multiply =>
      MultPollPhase(d.c, lo, pre);
      forall p: nat ensures KeysOnly(MultPollPlan(d.c, lo)(p)) { MultPollKeysOnly(d.c, lo, p); }
      PhaseToo(d.c.n, TableOf(d.c), ServerTables(d), lo, lo + 2 * d.c.n + 4, OpPoll(d), OpPollPlan(d, lo), pre,
          AfterOpPoll(d, pre));
    case Add =>
      NothingPhase(d.c.n, ServerTables(d), lo, lo + 2 * d.c.n + 4, pre, OpPoll(d), OpPollPlan(d, lo));
    case VectorSum =>
      SumPollPhase(d.c, lo, pre);
      LaterPhase(d.c.n, TableOf(d.c), lo, lo + 2 * d.c.n + 3, lo + 2 * d.c.n + 4, {}, SumPoll(d.c),
          Poll2PlanOf(d.c, lo), pre, AfterSum(d.c, pre));
      forall p: nat ensures KeysOnly(Poll2PlanOf(d.c, lo)(p)) { SumPollKeysOnly(d.c, lo, p); }
      PhaseToo(d.c.n, TableOf(d.c), ServerTables(d), lo, lo + 2 * d.c.n + 4, OpPoll(d), OpPollPlan(d, lo), pre,
          AfterOpPoll(d, pre));
  }

  lemma {:induction false} SumPollKeysOnly<T>(c: Setup<T>, lo: nat, p: nat)
    ensures KeysOnly(Poll2PlanOf(c, lo)(p))
  {
    hide TableOf;
    var a, b := Poll2In(lo, p, EvalSumKeys0, EvalSumKeys1, TableOf(c)), Poll2Out(c.n, lo, p, EvalSumKeys0,
        EvalSumKeys1, TableOf(c));
    assert KeysOnly(a) && KeysOnly(b);
    assert Poll2PlanOf(c, lo)(p) == a + b;
  }

  function CipherPoll<T>(d: Demo<T>): nat -> Code<T> {
    (p: nat) => PublishCode(d.c.n, p, CipherTexts, GetCipher(), KeepCipher())
  }
  function CipherPollPlan<T>(d: Demo<T>, lo: nat): nat -> Plan<T> {
    (p: nat) => PublishPlan(d.c.n, lo, p, CipherTexts, CipherOf(d))
  }

  // ---- where the stages take the clients ----

  function Keyed<T(==)>(d: Demo<T>): Nodes<T> { AfterOpPoll(d, AfterPub(d.c, AtStart())) }
  function Encrypted<T(==)>(d: Demo<T>): Nodes<T> { (p: nat) => EncryptOwn(d)(p)(Keyed(d)(p)) }
  function Gathered<T(==)>(d: Demo<T>): Nodes<T> { (p: nat) => Encrypted(d)(p).(ciphers := AllCiphers(d)) }
  function Evaluated<T(==)>(d: Demo<T>): Nodes<T> {
    (p: nat) => if p in d.dropped then Gathered(d)(p) else ComputeOwn(d)(p)(Gathered(d)(p))
  }

  lemma {:induction false} MultKeyed<T>(c: Setup<T>, pre: Nodes<T>, p: nat)
    ensures var k := AfterMult(c, pre)(p);
            k.finalPub == pre(p).finalPub && k.ciphers == pre(p).ciphers && k.evalMultFinal == BwdOf(c)(1)
  {
    assert WithEval(c, pre)(p) == pre(p).(evalKey := FwdOf(c)(p));
    assert WithAll(c, pre)(p) == WithEval(c, pre)(p).(evalKeyAll := FwdOf(c)(c.n));
    assert WithMix(c, pre)(p) == WithAll(c, pre)(p).(mixKey := BwdOf(c)(p));
    assert AfterMult(c, pre)(p) == WithMix(c, pre)(p).(evalMultFinal := BwdOf(c)(1));
  }

  lemma {:induction false} SumKeyed<T>(c: Setup<T>, pre: Nodes<T>, p: nat)
    ensures var k := AfterSum(c, pre)(p);
            k.finalPub == pre(p).finalPub && k.ciphers == pre(p).ciphers && k.evalSumFinal == Sum1Of(c)(c.n)
  {
    assert WithSum(c, pre)(p) == pre(p).(sumKey0 := Sum0Of(c)(p), sumKey1 := Sum1Of(c)(p));
    assert AfterSum(c, pre)(p) == WithSum(c, pre)(p).(evalSumFinal := Sum1Of(c)(c.n));
  }

  lemma {:induction false} IsKeyed<T>(d: Demo<T>, p: nat)
    ensures var k := Keyed(d)(p);
            k.finalPub == PubOf(d.c)(d.c.n) && k.ciphers == map[] && OpKey(d.op, k) == JointOpKey(d)
  {
    hide PubOf, AfterMult, AfterSum;
    var pub := AfterPub(d.c, AtStart());
    assert WithPub(d.c, AtStart())(p) == Blank().(pubKey := PubOf(d.c)(p));
    assert pub(p) == WithPub(d.c, AtStart())(p).(finalPub := PubOf(d.c)(d.c.n));
    match d.op
    case Multiply => MultKeyed(d.c, pub, p);
    case Add =>
    case VectorSum => SumKeyed(d.c, pub, p);
  }

  lemma {:induction false} IsEncrypted<T>(d: Demo<T>, p: nat)
    ensures Encrypted(d)(p).cipher == CipherOf(d)(p) && Encrypted(d)(p).ciphers == map[p := CipherOf(d)(p)]
    ensures OpKey(d.op, Encrypted(d)(p)) == JointOpKey(d)
  {
    hide Keyed, PubOf, JointOpKey;
    IsKeyed(d, p);
    var k := Keyed(d)(p);
    assert Encrypted(d)(p) == k.(cipher := CipherOf(d)(p), ciphers := k.ciphers[p := CipherOf(d)(p)]);
    assert k.ciphers[p := CipherOf(d)(p)] == map[p := CipherOf(d)(p)];
  }

  lemma {:induction false} CipherPollPhase<T>(d: Demo<T>, lo: nat)
    ensures Phase(d.c.n, ServerTables(d), lo, lo + 2, {}, CipherPoll(d), CipherPollPlan(d, lo), Encrypted(d),
            Gathered(d))
  {
    hide Phase, PublishCode, PublishPlan, Stored, Encrypted, Upwards, TableOf;
    forall p: nat | 1 <= p <= d.c.n
      ensures CipherOf(d)(p) == GetCipher()(Encrypted(d)(p))
      ensures Gathered(d)(p) == Stored(Encrypted(d)(p), 1, d.c.n, {p}, CipherOf(d), KeepCipher())
    {
      IsEncrypted(d, p);
      CiphersStored(Encrypted(d)(p), 1, d.c.n, {p}, CipherOf(d));
      UpwardsWith(p, d.c.n, {}, CipherOf(d));
      assert {p} + {} == {p};
    }
    PublishPhase(d.c.n, ServerTables(d), lo, CipherTexts, GetCipher(), KeepCipher(), CipherOf(d), Encrypted(d),
        Gathered(d), CipherPoll(d), CipherPollPlan(d, lo));
  }

  // ---- the stages put together ----

  function KeyStages<T(==)>(d: Demo<T>): nat -> Code<T> { Then(Then(PubPoll(d.c), PostShares(d)), OpPoll(d)) }
  function KeyStagesPlan<T(==)>(d: Demo<T>): nat -> Plan<T> {
    var n := d.c.n;
    Then(Then(PollPlanOf(d.c, false, 0, PublicKeys), PostSharesPlan(d, n + 2)), OpPollPlan(d, n + 3))
  }
  function CipherStages<T(==)>(d: Demo<T>): nat -> Code<T> { Then(Then(EncryptAll(d), CipherPoll(d)), ComputeAll(d)) }
  function CipherStagesPlan<T(==)>(d: Demo<T>): nat -> Plan<T> {
    var lo := 3 * d.c.n + 7;
    Then(Then(LocalPlanOf({}, lo), CipherPollPlan(d, lo + 1)), LocalPlanOf(d.dropped, lo + 3))
  }

  /** Everything up to the client's own partial decryption; a client that drops out exits before that. */
  function ClientProgram<T(==)>(d: Demo<T>): nat -> Code<T> { Then(KeyStages(d), CipherStages(d)) }

  lemma {:induction false} KeyStagesPhase<T>(d: Demo<T>)
    requires 2 <= d.c.n
    ensures Phase(d.c.n, ServerTables(d), 0, 3 * d.c.n + 7, {}, KeyStages(d), KeyStagesPlan(d), AtStart(), Keyed(d))
  {
    hide Phase, PubPoll, PollPlanOf, PostShares, PostSharesPlan, OpPoll, OpPollPlan, AtStart, AfterPub, ServerTables,
        AfterOpPoll;
    var n, tables, pub := d.c.n, ServerTables(d), AfterPub(d.c, AtStart());
    PubPollToo(d, 0, AtStart());
    PostSharesPhase(d, n + 2, pub);
    PhaseThen(n, tables, 0, n + 2, n + 3, {}, {}, {}, PubPoll(d.c), PollPlanOf(d.c, false, 0, PublicKeys), AtStart(),
        pub, PostShares(d), PostSharesPlan(d, n + 2), pub);
    OpPollPhase(d, n + 3, pub);
    PhaseThen(n, tables, 0, n + 3, 3 * n + 7, {}, {}, {}, Then(PubPoll(d.c), PostShares(d)),
        Then(PollPlanOf(d.c, false, 0, PublicKeys), PostSharesPlan(d, n + 2)), AtStart(), pub, OpPoll(d),
        OpPollPlan(d, n + 3), Keyed(d));
  }

  lemma {:induction false} CipherStagesPhase<T>(d: Demo<T>)
    ensures Phase(d.c.n, ServerTables(d), 3 * d.c.n + 7, 3 * d.c.n + 11, {}, CipherStages(d), CipherStagesPlan(d),
            Keyed(d), Evaluated(d))
  {
    hide Phase, EncryptOwn, ComputeOwn, CipherPoll, CipherPollPlan, Keyed, ServerTables, LocalCode, LocalPlan,
        AllCiphers;
    var n, tables, lo := d.c.n, ServerTables(d), 3 * d.c.n + 7;
    LocalPhase(n, tables, lo, {}, EncryptOwn(d), Keyed(d), Encrypted(d), EncryptAll(d), LocalPlanOf({}, lo));
    hide Encrypted, Gathered;
    CipherPollPhase(d, lo + 1);
    PhaseThen(n, tables, lo, lo + 1, lo + 3, {}, {}, {}, EncryptAll(d), LocalPlanOf({}, lo), Keyed(d), Encrypted(d),
        CipherPoll(d), CipherPollPlan(d, lo + 1), Gathered(d));
    LocalPhase(n, tables, lo + 3, d.dropped, ComputeOwn(d), Gathered(d), Evaluated(d), ComputeAll(d),
        LocalPlanOf(d.dropped, lo + 3));
    PhaseThen(n, tables, lo, lo + 3, lo + 4, {}, {}, {}, Then(EncryptAll(d), CipherPoll(d)),
        Then(LocalPlanOf({}, lo), CipherPollPlan(d, lo + 1)), Keyed(d), Gathered(d), ComputeAll(d),
        LocalPlanOf(d.dropped, lo + 3), Evaluated(d));
  }

  lemma {:induction false} ClientPhase<T>(d: Demo<T>)
    requires 2 <= d.c.n
    ensures Phase(d.c.n, ServerTables(d), 0, 3 * d.c.n + 11, {}, ClientProgram(d),
            Then(KeyStagesPlan(d), CipherStagesPlan(d)), AtStart(), Evaluated(d))
  {
    hide Phase, KeyStages, KeyStagesPlan, CipherStages, CipherStagesPlan, AtStart, Keyed, Evaluated, ServerTables;
    KeyStagesPhase(d);
    CipherStagesPhase(d);
    PhaseThen(d.c.n, ServerTables(d), 0, 3 * d.c.n + 7, 3 * d.c.n + 11, {}, {}, {}, KeyStages(d), KeyStagesPlan(d),
        AtStart(), Keyed(d), CipherStages(d), CipherStagesPlan(d), Evaluated(d));
  }

  lemma {:induction false} IsEvaluated<T(!new)>(d: Demo<T>, p: nat)
    requires Lawful(d.c) && p !in d.dropped
    ensures Evaluated(d)(p).result == ResultOf(d)
            && Evaluated(d)(p).partial == PartialOf(d.c.ring, ResultOf(d), d.c.secret, p)
  {
    hide Encrypted, ResultOf, JointOpKey, AllCiphers, PartialOf, Rings.Commutative, Additive;
    IsEncrypted(d, p);
    ResultIs(d);
    var k := Gathered(d)(p);
    assert k == Encrypted(d)(p).(ciphers := AllCiphers(d));
    assert OpKey(d.op, k) == OpKey(d.op, Encrypted(d)(p));
    assert Evaluated(d)(p) == ComputeOwn(d)(p)(k);
  }

  /** In whatever order the clients poll and post: nobody waits for ever, every entry of every table is
      what its owner stands for, and a client that has not dropped out ends with the ciphertext computed
      from all parties' ciphertexts under the joint keys and its own partial decryption of it. */
  lemma {:induction false} ClientsEveryRun<T(!new)>(d: Demo<T>, who: seq<nat>)
    requires Lawful(d.c) && CanRun(Start(d.c.n, ClientProgram(d), AtStart()), who)
    ensures var net := Run(Start(d.c.n, ClientProgram(d), AtStart()), who);
            && GoesWell(d.c.n, Start(d.c.n, ClientProgram(d), AtStart()), net, |who|)
            && (forall cell | cell in net.table :: net.table[cell] == ServerTables(d)(cell))
            && (Finished(d.c.n, net) ==> forall p: nat | 1 <= p <= d.c.n && p !in d.dropped ::
                  && net.party[p].st.result == ResultOf(d)
                  && net.party[p].st.partial == PartialOf(d.c.ring, ResultOf(d), d.c.secret, p))
  {
    hide Phase, ClientProgram, KeyStagesPlan, CipherStagesPlan, AtStart, Evaluated, GoesWell, ServerTables, ResultOf,
        Rings.Commutative, Additive, PartialOf;
    ClientPhase(d);
    EveryPhaseRun(d.c.n, ServerTables(d), 3 * d.c.n + 11, {}, ClientProgram(d),
        Then(KeyStagesPlan(d), CipherStagesPlan(d)), AtStart(), Evaluated(d), who);
    forall p: nat | p !in d.dropped
      ensures Evaluated(d)(p).result == ResultOf(d)
              && Evaluated(d)(p).partial == PartialOf(d.c.ring, ResultOf(d), d.c.secret, p)
    {
      IsEvaluated(d, p);
    }
  }

  /** A client is that far as soon as it has no statement left, whatever the others still have to do. */
  lemma {:induction false} ClientReady<T(!new)>(d: Demo<T>, who: seq<nat>, p: nat)
    requires Lawful(d.c) && CanRun(Start(d.c.n, ClientProgram(d), AtStart()), who)
    requires 1 <= p <= d.c.n && p !in d.dropped
    ensures var net := Run(Start(d.c.n, ClientProgram(d), AtStart()), who);
            Parties(d.c.n, net) && (|net.party[p].code| == 0 ==>
              && net.party[p].st.result == ResultOf(d)
              && net.party[p].st.partial == PartialOf(d.c.ring, ResultOf(d), d.c.secret, p))
  {
    hide Phase, ClientProgram, KeyStagesPlan, CipherStagesPlan, AtStart, Evaluated, ServerTables, ResultOf,
        Rings.Commutative, Additive, PartialOf;
    ClientPhase(d);
    EveryPartyPhase(d.c.n, ServerTables(d), 3 * d.c.n + 11, {}, ClientProgram(d),
        Then(KeyStagesPlan(d), CipherStagesPlan(d)), AtStart(), Evaluated(d), who);
    IsEvaluated(d, p);
  }

  // ---- what is posted by then ----

  predicate HasPost<L, V>(code: seq<Instr<L, V>>, cell: Cell) {
    |code| != 0 && ((code[0].Post? && code[0].cell == cell) || HasPost(code[1..], cell))
  }
  predicate HasPoll<L, V>(code: seq<Instr<L, V>>, cell: Cell) {
    |code| != 0 && ((code[0].Poll? && code[0].cell == cell) || HasPoll(code[1..], cell))
  }

  /** Only client p's own ciphertext is posted, and its shares not after that; nothing is received. */
  predicate Orderly<L, V>(code: seq<Instr<L, V>>, p: nat) {
    |code| == 0 ||
    (&& !code[0].Recv? && Orderly(code[1..], p)
     && (code[0].Post? && code[0].cell.table == CipherTexts ==>
           code[0].cell.id == p && !HasPost(code[1..], Cell(SecretShares, p))))
  }

  /** What is still to come, or already there; a ciphertext only with its client's shares. */
  ghost predicate PostsOf<L, V>(net: Net<L, V>, c: nat, p: nat)
    requires p in net.party && c in net.party
  {
    && Orderly(net.party[p].code, p)
    && (Cell(SecretShares, p) in net.table || HasPost(net.party[p].code, Cell(SecretShares, p)))
    && (Cell(CipherTexts, p) in net.table ==> Cell(SecretShares, p) in net.table)
    && (p == c || Cell(CipherTexts, p) in net.table || HasPoll(net.party[c].code, Cell(CipherTexts, p)))
  }

  ghost predicate Posting<L, V>(n: nat, net: Net<L, V>, c: nat) {
    Parties(n, net) && 1 <= c <= n && forall p: nat | 1 <= p <= n :: PostsOf(net, c, p)
  }

  lemma {:induction false} StepPosts<L, V>(net: Net<L, V>, c: nat, q: nat, p: nat)
    requires p in net.party && c in net.party && q in net.party && PostsOf(net, c, p) && !Waits(net, q)
    requires Orderly(net.party[q].code, q) && Orderly(net.party[c].code, c)
    ensures p in After(net, q).party && c in After(net, q).party && PostsOf(After(net, q), c, p)
  {
    var code := net.party[q].code;
    assert After(net, q).party[q].code == code[1..];
  }

  lemma {:induction false} StepPosting<L, V>(n: nat, net: Net<L, V>, c: nat, q: nat)
    requires Posting(n, net, c) && q in net.party && !Waits(net, q)
    ensures Posting(n, After(net, q), c)
  {
    hide After, Waits, PostsOf;
    assert PostsOf(net, c, q) && PostsOf(net, c, c);
    OrderlyOf(net, c, q);
    OrderlyOf(net, c, c);
    SameParties(net, q);
    forall p: nat | 1 <= p <= n ensures p in After(net, q).party && PostsOf(After(net, q), c, p) {
      StepPosts(net, c, q, p);
    }
  }

  lemma {:induction false} OrderlyOf<L, V>(net: Net<L, V>, c: nat, p: nat)
    requires p in net.party && c in net.party && PostsOf(net, c, p)
    ensures Orderly(net.party[p].code, p)
  {}

  lemma {:induction false} SameParties<L, V>(net: Net<L, V>, q: nat)
    requires q in net.party && !Waits(net, q)
    ensures After(net, q).party.Keys == net.party.Keys
  {}

  lemma {:induction false} RunPosting<L, V>(n: nat, net: Net<L, V>, c: nat, who: seq<nat>)
    requires Posting(n, net, c) && CanRun(net, who)
    ensures Posting(n, Run(net, who), c)
    decreases |who|
  {
    hide Posting, Waits, After;
    if |who| != 0 {
      StepPosting(n, net, c, who[0]);
      RunPosting(n, After(net, who[0]), c, who[1..]);
    }
  }

  lemma {:induction false} PostsConcat<L, V>(x: seq<Instr<L, V>>, y: seq<Instr<L, V>>, cell: Cell)
    ensures HasPost(x + y, cell) <==> HasPost(x, cell) || HasPost(y, cell)
    ensures HasPoll(x + y, cell) <==> HasPoll(x, cell) || HasPoll(y, cell)
    decreases |x|
  {
    if |x| == 0 {
      assert x + y == y;
    } else {
      PostsConcat(x[1..], y, cell);
      assert (x + y)[1..] == x[1..] + y && (x + y)[0] == x[0];
    }
  }

  /** Code that posts to other tables only. */
  predicate Elsewhere<L, V>(code: seq<Instr<L, V>>) {
    forall k | 0 <= k < |code| ::
      !code[k].Recv? && (code[k].Post? ==> code[k].cell.table != SecretShares && code[k].cell.table != CipherTexts)
  }

  lemma {:induction false} OrderlyConcat<L, V>(x: seq<Instr<L, V>>, y: seq<Instr<L, V>>, p: nat)
    requires Orderly(y, p) && (Elsewhere(x) || (Orderly(x, p) && !HasPost(y, Cell(SecretShares, p))))
    ensures Orderly(x + y, p)
    decreases |x|
  {
    if |x| == 0 {
      assert x + y == y;
    } else {
      OrderlyConcat(x[1..], y, p);
      PostsConcat(x[1..], y, Cell(SecretShares, p));
      assert (x + y)[1..] == x[1..] + y && (x + y)[0] == x[0];
    }
  }

  lemma {:induction false} ElsewhereIs<L, V>(code: seq<Instr<L, V>>, p: nat)
    requires Elsewhere(code)
    ensures Orderly(code, p) && !HasPost(code, Cell(SecretShares, p))
    decreases |code|
  {
    if |code| != 0 {
      ElsewhereIs(code[1..], p);
    }
  }

  lemma {:induction false} KeysElsewhere<T>(d: Demo<T>, p: nat)
    ensures Elsewhere(PubPoll(d.c)(p)) && Elsewhere(OpPoll(d)(p))
  {
    match d.op
    case Multiply => assert MultPoll(d.c)(p) == EvalPoll(d.c)(p) + MixPoll(d.c)(p);
    case Add =>
    case VectorSum =>
  }

  lemma {:induction false} PollsAll<L, V>(i: nat, n: nat, skip: set<nat>, table: Table, store: nat -> (L, V) -> L,
      p: nat)
    ensures var code := PollAll(i, n, skip, table, store);
            && Elsewhere(code) && forall j: nat | i <= j <= n && j !in skip :: HasPoll(code, Cell(table, j))
    decreases n + 1 - i
  {
    if i <= n {
      PollsAll(i + 1, n, skip, table, store, p);
      if i !in skip {
        var one: seq<Instr<L, V>> := [Poll(Cell(table, i), store(i))];
        assert PollAll(i, n, skip, table, store)[1..] == PollAll(i + 1, n, skip, table, store);
      }
    }
  }

  lemma {:induction false} CipherOrderly<T>(d: Demo<T>, p: nat)
    ensures Orderly(CipherStages(d)(p), p) && !HasPost(CipherStages(d)(p), Cell(SecretShares, p))
    ensures forall i: nat | 1 <= i <= d.c.n && i != p :: HasPoll(CipherStages(d)(p), Cell(CipherTexts, i))
  {
    var a, b, rest := EncryptAll(d)(p), CipherPoll(d)(p), ComputeAll(d)(p);
    var polls: Code<T> := PollAll(1, d.c.n, {p}, CipherTexts, KeepCipher());
    PollsAll<Node<T>, Val<T>>(1, d.c.n, {p}, CipherTexts, KeepCipher(), p);
    ElsewhereIs(polls, p);
    ElsewhereIs(a, p);
    ElsewhereIs(rest, p);
    assert b[1..] == polls;
    hide PollAll, EncryptAll, ComputeAll;
    OrderlyConcat(a, b, p);
    PostsConcat(a, b, Cell(SecretShares, p));
    OrderlyConcat(a + b, rest, p);
    PostsConcat(a + b, rest, Cell(SecretShares, p));
    forall i: nat | 1 <= i <= d.c.n && i != p ensures HasPoll(CipherStages(d)(p), Cell(CipherTexts, i)) {
      PostsConcat(a, b, Cell(CipherTexts, i));
      PostsConcat(a + b, rest, Cell(CipherTexts, i));
    }
  }

  lemma {:induction false} ProgramOrderly<T>(d: Demo<T>, p: nat)
    ensures Orderly(ClientProgram(d)(p), p) && HasPost(ClientProgram(d)(p), Cell(SecretShares, p))
    ensures forall i: nat | 1 <= i <= d.c.n && i != p :: HasPoll(ClientProgram(d)(p), Cell(CipherTexts, i))
  {
    var a, b, rest, last := PubPoll(d.c)(p), PostShares(d)(p), OpPoll(d)(p), CipherStages(d)(p);
    assert b[1..] == [];
    KeysElsewhere(d, p);
    CipherOrderly(d, p);
    hide PubPoll, OpPoll, CipherStages, Elsewhere;
    ElsewhereIs(a, p);
    ElsewhereIs(rest, p);
    PostsConcat(a, b, Cell(SecretShares, p));
    OrderlyConcat(a, b, p);
    OrderlyConcat(a + b, rest, p);
    PostsConcat(a + b, rest, Cell(SecretShares, p));
    OrderlyConcat(a + b + rest, last, p);
    PostsConcat(a + b + rest, last, Cell(SecretShares, p));
    forall i: nat | 1 <= i <= d.c.n && i != p ensures HasPoll(ClientProgram(d)(p), Cell(CipherTexts, i)) {
      PostsConcat(a + b + rest, last, Cell(CipherTexts, i));
    }
  }

  lemma {:induction false} StartPosts<T>(d: Demo<T>, c: nat, p: nat)
    requires 1 <= c <= d.c.n && 1 <= p <= d.c.n
    ensures PostsOf(Start(d.c.n, ClientProgram(d), AtStart()), c, p)
  {
    hide ClientProgram, AtStart, Orderly, HasPost, HasPoll;
    ProgramOrderly(d, p);
    ProgramOrderly(d, c);
  }

  lemma {:induction false} NothingToCome<L, V>(net: Net<L, V>, c: nat, i: nat)
    requires c in net.party && i in net.party && PostsOf(net, c, i) && |net.party[c].code| == 0
    requires PostsOf(net, c, c)
    ensures Cell(SecretShares, i) in net.table
  {}

  // ---- and the abort loop ----

  /** What the abort loop works on once the clients have evaluated. */
  function ServiceOf<T>(d: Demo<T>, ct: Val<T>): Aborts.Service<T> {
    Aborts.Service(d.c.n, d.c.ring, d.c.secret, ct, d.share, d.recover)
  }

  /** By the time a client has no statement left every client's shares are in the server's table, and what
      the server selects from an entry is what the abort loop recovers from. */
  lemma {:induction false} SharesPosted<T(!new)>(d: Demo<T>, who: seq<nat>, c: nat, i: nat)
    requires Lawful(d.c) && CanRun(Start(d.c.n, ClientProgram(d), AtStart()), who)
    requires 1 <= c <= d.c.n && 1 <= i <= d.c.n
    ensures var net := Run(Start(d.c.n, ClientProgram(d), AtStart()), who);
            Parties(d.c.n, net) && (|net.party[c].code| == 0 ==>
              && Cell(SecretShares, i) in net.table && net.table[Cell(SecretShares, i)].Shares?
              && var posted := net.table[Cell(SecretShares, i)].dealt;
              Aborts.Selected(ServiceOf(d, net.party[c].st.result), i)
              == map j | j in Recovery.Chosen(1, d.c.n, i, Threshold(d.c.n)) && j in posted :: posted[j])
  {
    hide ClientProgram, AtStart, Run, CanRun, Orderly, HasPost, HasPoll, PostsOf, SharesOf, CipherOf, ResultOf,
        PartialOf, Rings.Commutative, Additive;
    var start, n := Start(d.c.n, ClientProgram(d), AtStart()), d.c.n;
    forall p: nat | 1 <= p <= n ensures PostsOf(start, c, p) { StartPosts(d, c, p); }
    RunPosting(n, start, c, who);
    ClientsEveryRun(d, who);
    var net := Run(start, who);
    assert PostsOf(net, c, i) && PostsOf(net, c, c);
    if |net.party[c].code| == 0 {
      NothingToCome(net, c, i);
      SelectedFromTable(d, net.party[c].st.result, i);
    }
  }

  lemma {:induction false} SelectedFromTable<T>(d: Demo<T>, ct: Val<T>, i: nat)
    requires 1 <= i <= d.c.n
    ensures SharesOf(d)(i).Shares?
    ensures var posted := SharesOf(d)(i).dealt;
            Aborts.Selected(ServiceOf(d, ct), i)
            == map j | j in Recovery.Chosen(1, d.c.n, i, Threshold(d.c.n)) && j in posted :: posted[j]
  {
    var posted := SharesOf(d)(i).dealt;
    assert forall j | j in Recovery.Chosen(1, d.c.n, i, Threshold(d.c.n)) :: j in posted;
  }

  // ---- with Shamir's sharing ----

  /** The shares the server selects and the shares the survivors of the peer-to-peer version collect
      are different, and give the same secret. */
  lemma {:induction false} SameRecovery(d: Demo<Element>, qs: seq<nat>, dealt: nat -> seq<seq<int>>, ct: Val<Element>,
      i: nat)
    requires DealsShamir(d, qs, dealt) && EnoughLeft(d) && i in d.dropped
    ensures Aborts.SharesRecover(ServiceOf(d, ct))
    ensures d.recover(Aborts.Selected(ServiceOf(d, ct), i)) == d.c.secret(i)
    ensures d.recover(Upwards(1, d.c.n, d.dropped, ShareBy(d, i))) == d.c.secret(i)
  {
    hide DealsShamir;
    var v := ServiceOf(d, ct);
    ShamirServes(d, qs, dealt, ct);
    assert |d.dropped| >= 1 by { assert d.dropped != {}; }
    Aborts.SelectionIsEnough(v);
    UpwardsSize(d.c.n, d.dropped, ShareBy(d, i));
    SharesGiveSecret(d, qs, dealt, i, Upwards(1, d.c.n, d.dropped, ShareBy(d, i)));
  }

  lemma {:induction false} ShamirServes(d: Demo<Element>, qs: seq<nat>, dealt: nat -> seq<seq<int>>, ct: Val<Element>)
    requires DealsShamir(d, qs, dealt)
    ensures Aborts.SharesRecover(ServiceOf(d, ct))
  {
    hide DealsShamir;
    var v := ServiceOf(d, ct);
    forall i: nat, m | 1 <= i <= v.n && Aborts.TrueSharesOf(v, i, m) && |m| >= Threshold(v.n)
      ensures v.recover(m) == v.secret(i)
    {
      SharesGiveSecret(d, qs, dealt, i, m);
    }
  }
}

/** Building plans from phases: broadcasts, collections, and one phase after another. */
module Phases {
  import opened Network

  ghost predicate Within<V>(lo: nat, hi: nat, plan: seq<Ranked<V>>) {
    forall x | x in plan :: lo <= x.rank < hi
  }

  /** What one party does in a phase that takes ranks lo..hi, and the state it leaves. */
  ghost predicate PartyPhase<L, V>(n: nat, entry: Cell -> V, lo: nat, hi: nat, code: seq<Instr<L, V>>,
      plan: seq<Ranked<V>>, pre: L, post: L) {
    && Conforms(pre, code, plan) && Outcome(pre, code, plan) == post
    && Tidy(n, entry, plan) && Within(lo, hi, plan)
  }

  /** One phase after another at one party. */
  lemma {:induction false} PartyThen<L, V>(n: nat, entry: Cell -> V, lo: nat, mid: nat, hi: nat, code: seq<Instr<L, V>>,
      plan: seq<Ranked<V>>, pre: L, between: L, code': seq<Instr<L, V>>, plan': seq<Ranked<V>>, post: L)
    requires PartyPhase(n, entry, lo, mid, code, plan, pre, between) && PartyPhase(n, entry, mid, hi, code', plan',
             between, post)
    requires lo <= mid <= hi
    ensures PartyPhase(n, entry, lo, hi, code + code', plan + plan', pre, post)
    decreases |code|
  {
    if |code| == 0 {
      assert code + code' == code' && plan + plan' == plan';
    } else {
      assert (code + code')[1..] == code[1..] + code' && (plan + plan')[1..] == plan[1..] + plan';
      assert plan[0] in plan && (code + code')[0] == code[0] && (plan + plan')[0] == plan[0];
      assert forall x | x in plan[1..] :: x in plan;
      PartyThen(n, entry, lo, mid, hi, code[1..], plan[1..], Effect(pre, code[0], plan[0].ev), between, code', plan',
          post);
      assert RankedFrom(plan[0].rank, plan[1..] + plan');
    }
  }

  lemma {:induction false} SendsConcat<V>(p: seq<Ranked<V>>, q: seq<Ranked<V>>, b: nat)
    ensures SendsTo(p + q, b) == SendsTo(p, b) + SendsTo(q, b)
    decreases |p|
  {
    if |p| == 0 { assert p + q == q; }
    else { SendsConcat(p[1..], q, b); assert (p + q)[1..] == p[1..] + q; }
  }

  lemma {:induction false} RecvsConcat<V>(p: seq<Ranked<V>>, q: seq<Ranked<V>>, a: nat)
    ensures RecvsFrom(p + q, a) == RecvsFrom(p, a) + RecvsFrom(q, a)
    decreases |p|
  {
    if |p| == 0 { assert p + q == q; }
    else { RecvsConcat(p[1..], q, a); assert (p + q)[1..] == p[1..] + q; }
  }

  ghost predicate NoPolls<V>(plan: seq<Ranked<V>>) {
    forall x | x in plan :: !x.ev.Polled?
  }

  // ---- a few statements ----

  predicate Ok1<L, V(==)>(n: nat, entry: Cell -> V, st: L, i: Instr<L, V>, x: Ranked<V>) {
    Fits(st, i, x.ev) && ItemOk(n, entry, x)
  }

  function Out1<V>(x: Ranked<V>, b: nat): Stream<V> {
    if x.ev.Sent? && x.ev.to == b then [(x.ev.msg, x.rank)] else []
  }

  function In1<V>(x: Ranked<V>, a: nat): Stream<V> {
    if x.ev.Got? && x.ev.from == a then [(x.ev.msg, x.ev.at)] else []
  }

  lemma {:induction false} NonePhase<L, V>(n: nat, entry: Cell -> V, lo: nat, hi: nat, pre: L)
    ensures PartyPhase(n, entry, lo, hi, [], [], pre, pre)
  {}

  lemma {:induction false} Streams1<V>(plan: seq<Ranked<V>>, b: nat)
    requires |plan| == 1
    ensures SendsTo(plan, b) == Out1(plan[0], b) && RecvsFrom(plan, b) == In1(plan[0], b)
  {
    assert plan[1..] == [];
  }

  lemma {:induction false} Streams2<V>(plan: seq<Ranked<V>>, b: nat)
    requires |plan| == 2
    ensures SendsTo(plan, b) == Out1(plan[0], b) + Out1(plan[1], b) && RecvsFrom(plan, b) == In1(plan[0],
             b) + In1(plan[1], b)
  {
    Streams1(plan[1..], b);
  }

  lemma {:induction false} OnePhase<L, V>(n: nat, entry: Cell -> V, lo: nat, hi: nat, code: seq<Instr<L, V>>,
      plan: seq<Ranked<V>>, pre: L)
    requires |code| == |plan| == 1
    requires Ok1(n, entry, pre, code[0], plan[0]) && lo <= plan[0].rank < hi
    ensures PartyPhase(n, entry, lo, hi, code, plan, pre, Effect(pre, code[0], plan[0].ev))
    ensures forall b :: SendsTo(plan, b) == Out1(plan[0], b)
    ensures forall a :: RecvsFrom(plan, a) == In1(plan[0], a)
  {
    assert code[1..] == [] && plan[1..] == [];
  }

  lemma {:induction false} TwoPhase<L, V>(n: nat, entry: Cell -> V, lo: nat, hi: nat, code: seq<Instr<L, V>>,
      plan: seq<Ranked<V>>, pre: L)
    requires |code| == |plan| == 2
    requires Ok1(n, entry, pre, code[0], plan[0]) && Ok1(n, entry, Effect(pre, code[0], plan[0].ev), code[1], plan[1])
    requires lo <= plan[0].rank <= plan[1].rank < hi
    ensures PartyPhase(n, entry, lo, hi, code, plan, pre, Effect(Effect(pre, code[0], plan[0].ev), code[1], plan[1].ev))
    ensures forall b :: SendsTo(plan, b) == Out1(plan[0], b) + Out1(plan[1], b)
    ensures forall a :: RecvsFrom(plan, a) == In1(plan[0], a) + In1(plan[1], a)
  {
    OnePhase(n, entry, plan[1].rank, hi, code[1..], plan[1..], Effect(pre, code[0], plan[0].ev));
  }

  lemma {:induction false} ThreePhase<L, V>(n: nat, entry: Cell -> V, lo: nat, hi: nat, code: seq<Instr<L, V>>,
      plan: seq<Ranked<V>>, pre: L)
    requires |code| == |plan| == 3
    requires Ok1(n, entry, pre, code[0], plan[0]) && Ok1(n, entry, Effect(pre, code[0], plan[0].ev), code[1], plan[1])
    requires Ok1(n, entry, Effect(Effect(pre, code[0], plan[0].ev), code[1], plan[1].ev), code[2], plan[2])
    requires lo <= plan[0].rank <= plan[1].rank <= plan[2].rank < hi
    ensures PartyPhase(n, entry, lo, hi, code, plan, pre,
            Effect(Effect(Effect(pre, code[0], plan[0].ev), code[1], plan[1].ev), code[2], plan[2].ev))
    ensures forall b :: SendsTo(plan, b) == Out1(plan[0], b) + Out1(plan[1], b) + Out1(plan[2], b)
    ensures forall a :: RecvsFrom(plan, a) == In1(plan[0], a) + In1(plan[1], a) + In1(plan[2], a)
  {
    TwoPhase(n, entry, plan[1].rank, hi, code[1..], plan[1..], Effect(pre, code[0], plan[0].ev));
  }

  // ---- broadcasts ----

  /** The same message to everybody in `order`, one after another. */
  function SendAll<L, V>(order: seq<nat>, kind: string, what: L -> V): seq<Instr<L, V>> {
    if |order| == 0 then [] else [Send(order[0], kind, what)] + SendAll(order[1..], kind, what)
  }

  function SendAllPlan<V>(order: seq<nat>, m: Msg<V>, rank: nat): seq<Ranked<V>> {
    if |order| == 0 then [] else [Ranked(rank, Sent(order[0], m))] + SendAllPlan(order[1..], m, rank)
  }

  /** `order` lists every party of 1..n but `me`, once. */
  ghost predicate Others(order: seq<nat>, me: nat, n: nat) {
    && (forall j :: j in order <==> 1 <= j <= n && j != me)
    && Distinct(order)
  }

  ghost predicate Distinct(order: seq<nat>) {
    |order| == 0 || (order[0] !in order[1..] && Distinct(order[1..]))
  }

  lemma {:induction false} SendAllPhase<L, V>(n: nat, entry: Cell -> V, order: seq<nat>, kind: string, what: L -> V,
      rank: nat, pre: L)
    requires forall j: nat | j in order :: 1 <= j <= n
    ensures PartyPhase(n, entry, rank, rank + 1, SendAll(order, kind, what),
            SendAllPlan(order, Msg(kind, what(pre)), rank), pre, pre)
    decreases |order|
  {
    if |order| != 0 {
      assert order[0] in order && forall j: nat | j in order[1..] :: j in order;
      SendAllPhase(n, entry, order[1..], kind, what, rank, pre);
      assert (SendAll(order, kind, what))[1..] == SendAll(order[1..], kind, what);
      assert (SendAllPlan(order, Msg(kind, what(pre)), rank))[1..] == SendAllPlan(order[1..], Msg(kind, what(pre)),
          rank);
    }
  }

  lemma {:induction false} SendAllStreams<V>(order: seq<nat>, m: Msg<V>, rank: nat, b: nat)
    requires Distinct(order)
    ensures SendsTo(SendAllPlan(order, m, rank), b) == if b in order then [(m, rank)] else []
    ensures RecvsFrom(SendAllPlan(order, m, rank), b) == [] && NoPolls(SendAllPlan(order, m, rank))
    decreases |order|
  {
    if |order| != 0 {
      SendAllStreams(order[1..], m, rank, b);
      assert (SendAllPlan(order, m, rank))[1..] == SendAllPlan(order[1..], m, rank);
    }
  }

  // ---- collections ----

  /** One message from each of i..n that is not in `skip`, in the order of the ids. */
  function RecvAll<L, V>(i: nat, n: nat, skip: set<nat>, kind: string, store: nat -> (L, V) -> L): seq<Instr<L, V>>
    decreases n + 1 - i
  {
    if i > n then [] else if i in skip then RecvAll(i + 1, n, skip, kind, store)
    else [Recv(i, kind, store(i))] + RecvAll(i + 1, n, skip, kind, store)
  }

  function RecvAllPlan<V>(i: nat, n: nat, skip: set<nat>, kind: string, val: nat -> V, at: nat): seq<Ranked<V>>
    decreases n + 1 - i
  {
    if i > n then [] else if i in skip then RecvAllPlan(i + 1, n, skip, kind, val, at)
    else [Ranked(at + 1, Got(i, Msg(kind, val(i)), at))] + RecvAllPlan(i + 1, n, skip, kind, val, at)
  }

  function Stored<L, V>(st: L, i: nat, n: nat, skip: set<nat>, val: nat -> V, store: nat -> (L, V) -> L): L
    decreases n + 1 - i
  {
    if i > n then st else Stored(if i in skip then st else store(i)(st, val(i)), i + 1, n, skip, val, store)
  }

  lemma {:induction false} RecvAllPhase<L, V>(n: nat, entry: Cell -> V, i: nat, skip: set<nat>, kind: string,
      val: nat -> V, store: nat -> (L, V) -> L, at: nat, pre: L)
    requires 1 <= i
    ensures PartyPhase(n, entry, at + 1, at + 2, RecvAll(i, n, skip, kind, store),
            RecvAllPlan(i, n, skip, kind, val, at), pre, Stored(pre, i, n, skip, val, store))
    decreases n + 1 - i
  {
    if i <= n {
      var st := if i in skip then pre else store(i)(pre, val(i));
      RecvAllPhase(n, entry, i + 1, skip, kind, val, store, at, st);
      if i !in skip {
        assert (RecvAll(i, n, skip, kind, store))[1..] == RecvAll(i + 1, n, skip, kind, store);
        assert (RecvAllPlan(i, n, skip, kind, val, at))[1..] == RecvAllPlan(i + 1, n, skip, kind, val, at);
      }
    }
  }

  lemma {:induction false} RecvAllStreams<V>(i: nat, n: nat, skip: set<nat>, kind: string, val: nat -> V, at: nat,
      a: nat)
    ensures RecvsFrom(RecvAllPlan(i, n, skip, kind, val, at), a) == if i <= a <= n
             && a !in skip then [(Msg(kind, val(a)), at)] else []
    ensures SendsTo(RecvAllPlan(i, n, skip, kind, val, at), a) == [] && NoPolls(RecvAllPlan(i, n, skip, kind, val, at))
    decreases n + 1 - i
  {
    if i <= n {
      RecvAllStreams(i + 1, n, skip, kind, val, at, a);
      if i !in skip {
        assert (RecvAllPlan(i, n, skip, kind, val, at))[1..] == RecvAllPlan(i + 1, n, skip, kind, val, at);
      }
    }
  }

  // ---- phases of all parties ----

  /** A phase of parties 1..n that takes ranks lo..hi: every party goes from pre to post; what each
      party receives from another is all that the other sent it, or, for the parties in `done` that
      will receive nothing more, a beginning of it. */
  ghost predicate Phase<L, V>(n: nat, entry: Cell -> V, lo: nat, hi: nat, done: set<nat>, code: nat -> seq<Instr<L, V>>,
      plan: nat -> seq<Ranked<V>>, pre: nat -> L, post: nat -> L) {
    && (forall p: nat | 1 <= p <= n :: PartyPhase(n, entry, lo, hi, code(p), plan(p), pre(p), post(p)))
    && (forall a: nat, b: nat | 1 <= a <= n && 1 <= b <= n :: Matched(b in done, SendsTo(plan(a), b),
        RecvsFrom(plan(b), a)))
    && PollsServed(n, map[], plan)
  }

  ghost predicate Matched<V>(done: bool, sends: Stream<V>, recvs: Stream<V>) {
    recvs == sends || (done && recvs <= sends)
  }

  /** Parties that go from pre to post over pipes whose streams match make a phase. */
  lemma {:induction false} PipesPhase<L, V>(n: nat, entry: Cell -> V, lo: nat, hi: nat, done: set<nat>,
      code: nat -> seq<Instr<L, V>>, plan: nat -> seq<Ranked<V>>, pre: nat -> L, post: nat -> L)
    requires forall p: nat | 1 <= p <= n :: PartyPhase(n, entry, lo, hi, code(p), plan(p), pre(p),
             post(p)) && NoPolls(plan(p))
    requires forall a: nat, b: nat | 1 <= a <= n && 1 <= b <= n :: Matched(b in done, SendsTo(plan(a), b),
             RecvsFrom(plan(b), a))
    ensures Phase(n, entry, lo, hi, done, code, plan, pre, post)
  {}

  ghost predicate Silent<V>(plan: seq<Ranked<V>>) {
    forall b: nat :: SendsTo(plan, b) == [] && RecvsFrom(plan, b) == []
  }

  /** Parties that use only the table make a phase if their polls are served. */
  lemma {:induction false} SilentPhase<L, V>(n: nat, entry: Cell -> V, lo: nat, hi: nat, code: nat -> seq<Instr<L, V>>,
      plan: nat -> seq<Ranked<V>>, pre: nat -> L, post: nat -> L)
    requires forall p: nat | 1 <= p <= n :: PartyPhase(n, entry, lo, hi, code(p), plan(p), pre(p),
             post(p)) && Silent(plan(p))
    requires PollsServed(n, map[], plan)
    ensures Phase(n, entry, lo, hi, {}, code, plan, pre, post)
  {}

  /** What every party does first, and then. */
  function Then<A>(first: nat -> seq<A>, second: nat -> seq<A>): nat -> seq<A> {
    (p: nat) => first(p) + second(p)
  }

  /** One phase after another. */
  lemma {:induction false} PhaseThen<L, V>(n: nat, entry: Cell -> V, lo: nat, mid: nat, hi: nat, done: set<nat>,
      done': set<nat>, all: set<nat>, code: nat -> seq<Instr<L, V>>, plan: nat -> seq<Ranked<V>>, pre: nat -> L,
      between: nat -> L, code': nat -> seq<Instr<L, V>>, plan': nat -> seq<Ranked<V>>, post: nat -> L)
    requires Phase(n, entry, lo, mid, done, code, plan, pre, between) && Phase(n, entry, mid, hi, done', code', plan',
             between, post)
    requires lo <= mid <= hi && all == done + done' && forall b: nat | b in done :: plan'(b) == []
    ensures Phase(n, entry, lo, hi, all, Then(code, code'), Then(plan, plan'), pre, post)
  {
    forall p: nat | 1 <= p <= n
      ensures PartyPhase(n, entry, lo, hi, code(p) + code'(p), plan(p) + plan'(p), pre(p), post(p))
    {
      PartyThen(n, entry, lo, mid, hi, code(p), plan(p), pre(p), between(p), code'(p), plan'(p), post(p));
    }
    forall a: nat, b: nat | 1 <= a <= n && 1 <= b <= n
      ensures Matched(b in all, SendsTo(plan(a) + plan'(a), b), RecvsFrom(plan(b) + plan'(b), a))
    {
      SendsConcat(plan(a), plan'(a), b);
      RecvsConcat(plan(b), plan'(b), a);
      assert Matched(b in done, SendsTo(plan(a), b), RecvsFrom(plan(b), a));
      assert Matched(b in done', SendsTo(plan'(a), b), RecvsFrom(plan'(b), a));
    }
    PollsThen(n, plan, plan', Then(plan, plan'));
  }

  lemma {:induction false} PollsThen<V>(n: nat, plan: nat -> seq<Ranked<V>>, plan': nat -> seq<Ranked<V>>,
      plans: nat -> seq<Ranked<V>>)
    requires forall p: nat | 1 <= p <= n :: plans(p) == plan(p) + plan'(p)
    requires PollsServed(n, map[], plan) && PollsServed(n, map[], plan')
    ensures PollsServed(n, map[], plans)
  {
    forall p: nat, x | 1 <= p <= n && x in plans(p) && x.ev.Polled?
      ensures SomePosts(n, plans, x.ev.cell, x.ev.at)
    {
      if x in plan(p) {
        PostsInBoth(n, plan, plans, x.ev.cell, x.ev.at);
      } else {
        PostsInBoth(n, plan', plans, x.ev.cell, x.ev.at);
      }
    }
  }

  lemma {:induction false} PostsInBoth<V>(n: nat, part: nat -> seq<Ranked<V>>, both: nat -> seq<Ranked<V>>, cell: Cell,
      at: nat)
    requires SomePosts(n, part, cell, at) && forall p: nat, x | 1 <= p <= n && x in part(p) :: x in both(p)
    ensures SomePosts(n, both, cell, at)
  {
    var a: nat :| 1 <= a <= n && Posts(part(a), cell, at);
    assert Posts(both(a), cell, at);
  }

  /** A phase from the start is a plan that decides every run. */
  lemma {:induction false} PhaseIsGoodPlan<L, V>(n: nat, entry: Cell -> V, hi: nat, done: set<nat>,
      code: nat -> seq<Instr<L, V>>, plan: nat -> seq<Ranked<V>>, pre: nat -> L, post: nat -> L)
    requires Phase(n, entry, 0, hi, done, code, plan, pre, post)
    ensures GoodPlan(n, code, pre, plan, entry)
    ensures forall p: nat | 1 <= p <= n :: Outcome(pre(p), code(p), plan(p)) == post(p)
  {
    forall p: nat | 1 <= p <= n
      ensures PartyFits(n, entry, Party(code(p), pre(p), true), plan(p)) && Outcome(pre(p), code(p), plan(p)) == post(p)
    {
      assert PartyPhase(n, entry, 0, hi, code(p), plan(p), pre(p), post(p));
    }
    forall a: nat, b: nat | 1 <= a <= n && 1 <= b <= n ensures RecvsFrom(plan(b), a) <= SendsTo(plan(a), b) {
      assert Matched(b in done, SendsTo(plan(a), b), RecvsFrom(plan(b), a));
    }
  }

  /** Parties that run through phases from the start: every interleaving goes well, carries what the
      plan names, and ends with every party in the state after the last phase. */
  lemma {:induction false} EveryPhaseRun<L, V>(n: nat, entry: Cell -> V, hi: nat, done: set<nat>,
      code: nat -> seq<Instr<L, V>>, plan: nat -> seq<Ranked<V>>, pre: nat -> L, post: nat -> L, who: seq<nat>)
    requires Phase(n, entry, 0, hi, done, code, plan, pre, post) && CanRun(Start(n, code, pre), who)
    ensures var net := Run(Start(n, code, pre), who);
            && GoesWell(n, Start(n, code, pre), net, |who|) && CarriesPlan(n, plan, entry, net)
            && (Finished(n, net) ==> forall p: nat | 1 <= p <= n :: net.party[p].st == post(p))
  {
    PhaseIsGoodPlan(n, entry, hi, done, code, plan, pre, post);
    EveryRun(n, code, pre, plan, entry, who);
  }

  /** And each party is in the state after its last phase as soon as it has no code left. */
  lemma {:induction false} EveryPartyPhase<L, V>(n: nat, entry: Cell -> V, hi: nat, done: set<nat>,
      code: nat -> seq<Instr<L, V>>, plan: nat -> seq<Ranked<V>>, pre: nat -> L, post: nat -> L, who: seq<nat>)
    requires Phase(n, entry, 0, hi, done, code, plan, pre, post) && CanRun(Start(n, code, pre), who)
    ensures var net := Run(Start(n, code, pre), who);
            Parties(n, net) && forall p: nat | 1 <= p <= n && |net.party[p].code| == 0 :: net.party[p].st == post(p)
  {
    PhaseIsGoodPlan(n, entry, hi, done, code, plan, pre, post);
    EveryParty(n, code, pre, plan, entry, who);
  }

  lemma {:induction false} SendAllSends<V>(order: seq<nat>, m: Msg<V>, rank: nat, x: Ranked<V>)
    requires x in SendAllPlan(order, m, rank)
    ensures x.ev.Sent? && x.ev.to in order && x.ev.msg == m
    decreases |order|
  {
    if x != SendAllPlan(order, m, rank)[0] { SendAllSends(order[1..], m, rank, x); }
  }
}

/** Phases with one more party beside the path: a message on its way while others work, and a party
    that collects from everybody. */
module Hubs {
  import opened Network
  import opened Phases

  // ---- one more party that does nothing ----

  /** Parties 1..n as before, and nothing for others. */
  function Wide<A>(n: nat, what: nat -> seq<A>): nat -> seq<A> { (p: nat) => if p <= n then what(p) else [] }
  function Beside<L>(n: nat, states: nat -> L, hub: L): nat -> L { (p: nat) => if p <= n then states(p) else hub }

  lemma {:induction false} TidyWide<V>(n: nat, entry: Cell -> V, plan: seq<Ranked<V>>)
    requires Tidy(n, entry, plan)
    ensures Tidy(n + 1, entry, plan)
    decreases |plan|
  {
    if |plan| != 0 { TidyWide(n, entry, plan[1..]); }
  }

  lemma {:induction false} NothingBeyond<V>(n: nat, entry: Cell -> V, plan: seq<Ranked<V>>, b: nat)
    requires Tidy(n, entry, plan) && n < b
    ensures SendsTo(plan, b) == [] && RecvsFrom(plan, b) == []
    decreases |plan|
  {
    if |plan| != 0 { NothingBeyond(n, entry, plan[1..], b); }
  }

  lemma {:induction false} PollsWide<V>(n: nat, plan: nat -> seq<Ranked<V>>)
    requires PollsServed(n, map[], plan)
    ensures PollsServed(n + 1, map[], Wide(n, plan))
  {
    forall p: nat, x | 1 <= p <= n + 1 && x in Wide(n, plan)(p) && x.ev.Polled?
      ensures SomePosts(n + 1, Wide(n, plan), x.ev.cell, x.ev.at)
    {
      assert SomePosts(n, plan, x.ev.cell, x.ev.at);
      var a: nat :| 1 <= a <= n && Posts(plan(a), x.ev.cell, x.ev.at);
      assert Posts(Wide(n, plan)(a), x.ev.cell, x.ev.at);
    }
  }

  lemma {:induction false} WidePhase<L, V>(n: nat, entry: Cell -> V, lo: nat, hi: nat, code: nat -> seq<Instr<L, V>>,
      plan: nat -> seq<Ranked<V>>, pre: nat -> L, post: nat -> L, hub: L)
    requires Phase(n, entry, lo, hi, {}, code, plan, pre, post)
    ensures Phase(n + 1, entry, lo, hi, {}, Wide(n, code), Wide(n, plan), Beside(n, pre, hub), Beside(n, post, hub))
  {
    hide PollsServed, Tidy;
    forall p: nat | 1 <= p <= n + 1
      ensures PartyPhase(n + 1, entry, lo, hi, Wide(n, code)(p), Wide(n, plan)(p), Beside(n, pre, hub)(p),
                         Beside(n, post, hub)(p))
    {
      if p <= n {
        assert PartyPhase(n, entry, lo, hi, code(p), plan(p), pre(p), post(p));
        TidyWide(n, entry, plan(p));
      } else {
        NonePhase(n + 1, entry, lo, hi, hub);
      }
    }
    forall a: nat, b: nat | 1 <= a <= n + 1 && 1 <= b <= n + 1
      ensures Matched(false, SendsTo(Wide(n, plan)(a), b), RecvsFrom(Wide(n, plan)(b), a))
    {
      if a <= n && b <= n {
        assert Matched(b in {}, SendsTo(plan(a), b), RecvsFrom(plan(b), a));
      } else if a <= n {
        assert PartyPhase(n, entry, lo, hi, code(a), plan(a), pre(a), post(a));
        NothingBeyond(n, entry, plan(a), b);
      } else if b <= n {
        assert PartyPhase(n, entry, lo, hi, code(b), plan(b), pre(b), post(b));
        NothingBeyond(n, entry, plan(b), a);
      }
    }
    PollsWide(n, plan);
  }

  // ---- one message that is on its way while others work ----

  function Say<L, V>(a: nat, b: nat, kind: string, what: L -> V): nat -> seq<Instr<L, V>> {
    (p: nat) => if p == a then [Send(b, kind, what)] else []
  }
  function SayPlan<V>(a: nat, b: nat, m: Msg<V>, lo: nat): nat -> seq<Ranked<V>> {
    (p: nat) => if p == a then [Ranked(lo, Sent(b, m))] else []
  }
  function Hear<L, V>(a: nat, b: nat, kind: string, store: (L, V) -> L): nat -> seq<Instr<L, V>> {
    (p: nat) => if p == b then [Recv(a, kind, store)] else []
  }
  function HearPlan<V>(a: nat, b: nat, m: Msg<V>, lo: nat, at: nat): nat -> seq<Ranked<V>> {
    (p: nat) => if p == b then [Ranked(lo, Got(a, m, at))] else []
  }

  /** a sends to b; the others, and a and b themselves, do something else; b receives. */
  function Across<L, V>(a: nat, b: nat, kind: string, what: L -> V, code: nat -> seq<Instr<L, V>>,
      store: (L, V) -> L): nat -> seq<Instr<L, V>> {
    Then(Then(Say(a, b, kind, what), code), Hear(a, b, kind, store))
  }
  function AcrossPlan<V>(a: nat, b: nat, m: Msg<V>, lo: nat, mid: nat,
      plan: nat -> seq<Ranked<V>>): nat -> seq<Ranked<V>> {
    Then(Then(SayPlan(a, b, m, lo), plan), HearPlan(a, b, m, mid, lo))
  }

  lemma {:induction false} SayParty<L, V>(n: nat, entry: Cell -> V, a: nat, b: nat, kind: string, what: L -> V, lo: nat,
      p: nat, pre: L, m: Msg<V>)
    requires 1 <= b <= n && (p == a ==> m == Msg(kind, what(pre)))
    ensures PartyPhase(n, entry, lo, lo + 1, Say<L, V>(a, b, kind, what)(p), SayPlan(a, b, m, lo)(p), pre, pre)
    ensures forall q: nat :: SendsTo(SayPlan(a, b, m, lo)(p), q) == if p == a && q == b then [(m, lo)] else []
    ensures forall q: nat :: RecvsFrom(SayPlan(a, b, m, lo)(p), q) == []
    ensures NoPolls(SayPlan(a, b, m, lo)(p))
  {
    if p == a {
      OnePhase(n, entry, lo, lo + 1, Say<L, V>(a, b, kind, what)(p), SayPlan(a, b, m, lo)(p), pre);
    } else {
      NonePhase(n, entry, lo, lo + 1, pre);
    }
  }

  lemma {:induction false} HearParty<L, V>(n: nat, entry: Cell -> V, a: nat, b: nat, kind: string, store: (L, V) -> L,
      lo: nat, at: nat, p: nat, pre: L, post: L, m: Msg<V>)
    requires 1 <= a <= n && at < lo && m.kind == kind && post == if p == b then store(pre, m.val) else pre
    ensures PartyPhase(n, entry, lo, lo + 1, Hear<L, V>(a, b, kind, store)(p), HearPlan(a, b, m, lo, at)(p), pre, post)
    ensures forall q: nat :: RecvsFrom(HearPlan(a, b, m, lo, at)(p), q) == if p == b && q == a then [(m, at)] else []
    ensures forall q: nat :: SendsTo(HearPlan(a, b, m, lo, at)(p), q) == []
    ensures NoPolls(HearPlan(a, b, m, lo, at)(p))
  {
    if p == b {
      OnePhase(n, entry, lo, lo + 1, Hear<L, V>(a, b, kind, store)(p), HearPlan(a, b, m, lo, at)(p), pre);
    } else {
      NonePhase(n, entry, lo, lo + 1, pre);
    }
  }

  lemma {:induction false} AcrossParty<L, V>(n: nat, entry: Cell -> V, a: nat, b: nat, kind: string, what: L -> V,
      store: (L, V) -> L, lo: nat, mid: nat, code: nat -> seq<Instr<L, V>>, plan: nat -> seq<Ranked<V>>, pre: L,
      between: L, post: L, m: Msg<V>, p: nat)
    requires 1 <= a <= n && 1 <= b <= n && lo < mid && m.kind == kind && (p == a ==> m == Msg(kind, what(pre)))
    requires PartyPhase(n, entry, lo + 1, mid, code(p), plan(p), pre, between)
    requires post == if p == b then store(between, m.val) else between
    ensures PartyPhase(n, entry, lo, mid + 1, Across(a, b, kind, what, code, store)(p),
                       AcrossPlan(a, b, m, lo, mid, plan)(p), pre, post)
  {
    hide PartyPhase, Say, SayPlan, Hear, HearPlan;
    SayParty(n, entry, a, b, kind, what, lo, p, pre, m);
    HearParty(n, entry, a, b, kind, store, mid, lo, p, between, post, m);
    var say: seq<Instr<L, V>>, hear: seq<Instr<L, V>> := Say(a, b, kind, what)(p), Hear(a, b, kind, store)(p);
    PartyThen(n, entry, lo, lo + 1, mid, say, SayPlan(a, b, m, lo)(p), pre, pre, code(p), plan(p), between);
    PartyThen(n, entry, lo, mid, mid + 1, say + code(p), SayPlan(a, b, m, lo)(p) + plan(p), pre, between, hear,
        HearPlan(a, b, m, mid, lo)(p), post);
  }

  lemma {:induction false} AcrossStreams<L, V>(n: nat, entry: Cell -> V, a: nat, b: nat, kind: string, what: L -> V,
      store: (L, V) -> L, lo: nat, mid: nat, plan: nat -> seq<Ranked<V>>, m: Msg<V>, p: nat, q: nat)
    ensures SendsTo(AcrossPlan(a, b, m, lo, mid, plan)(p), q)
            == (if p == a && q == b then [(m, lo)] else []) + SendsTo(plan(p), q)
    ensures RecvsFrom(AcrossPlan(a, b, m, lo, mid, plan)(p), q)
            == RecvsFrom(plan(p), q) + (if p == b && q == a then [(m, lo)] else [])
  {
    var say, hear := SayPlan(a, b, m, lo)(p), HearPlan(a, b, m, mid, lo)(p);
    if p == a { Streams1(say, q); }
    if p == b { Streams1(hear, q); }
    SendsConcat(say, plan(p), q);
    RecvsConcat(say, plan(p), q);
    SendsConcat(say + plan(p), hear, q);
    RecvsConcat(say + plan(p), hear, q);
  }

  lemma {:induction false} AcrossPolls<V>(n: nat, a: nat, b: nat, m: Msg<V>, lo: nat, mid: nat,
      plan: nat -> seq<Ranked<V>>)
    requires PollsServed(n, map[], plan)
    ensures PollsServed(n, map[], AcrossPlan(a, b, m, lo, mid, plan))
  {
    var say, hear := SayPlan(a, b, m, lo), HearPlan(a, b, m, mid, lo);
    assert PollsServed(n, map[], say) && PollsServed(n, map[], hear);
    PollsThen(n, say, plan, Then(say, plan));
    PollsThen(n, Then(say, plan), hear, AcrossPlan(a, b, m, lo, mid, plan));
  }

  /** A phase in which a sends nothing else to b, with one message from a to b across it, is a phase. */
  lemma {:induction false} AcrossPhase<L, V>(n: nat, entry: Cell -> V, a: nat, b: nat, kind: string, what: L -> V,
      store: (L, V) -> L, lo: nat, mid: nat, code: nat -> seq<Instr<L, V>>, plan: nat -> seq<Ranked<V>>,
      pre: nat -> L, between: nat -> L, post: nat -> L, m: Msg<V>)
    requires 1 <= a <= n && 1 <= b <= n && lo < mid && m == Msg(kind, what(pre(a)))
    requires Phase(n, entry, lo + 1, mid, {}, code, plan, pre, between) && SendsTo(plan(a), b) == []
    requires forall p: nat | 1 <= p <= n :: post(p) == if p == b then store(between(p), m.val) else between(p)
    ensures Phase(n, entry, lo, mid + 1, {}, Across(a, b, kind, what, code, store),
                  AcrossPlan(a, b, m, lo, mid, plan), pre, post)
  {
    hide PartyPhase, Across, AcrossPlan, PollsServed;
    forall p: nat | 1 <= p <= n
      ensures PartyPhase(n, entry, lo, mid + 1, Across(a, b, kind, what, code, store)(p),
                         AcrossPlan(a, b, m, lo, mid, plan)(p), pre(p), post(p))
    {
      AcrossParty(n, entry, a, b, kind, what, store, lo, mid, code, plan, pre(p), between(p), post(p), m, p);
    }
    forall p: nat, q: nat | 1 <= p <= n && 1 <= q <= n
      ensures Matched(false, SendsTo(AcrossPlan(a, b, m, lo, mid, plan)(p), q),
                      RecvsFrom(AcrossPlan(a, b, m, lo, mid, plan)(q), p))
    {
      assert Matched(q in {}, SendsTo(plan(p), q), RecvsFrom(plan(q), p));
      AcrossStreams(n, entry, a, b, kind, what, store, lo, mid, plan, m, p, q);
      AcrossStreams(n, entry, a, b, kind, what, store, lo, mid, plan, m, q, p);
    }
    AcrossPolls(n, a, b, m, lo, mid, plan);
  }

  // ---- a hub collects one message from each of the others ----

  function CollectCode<L, V>(n: nat, kind: string, what: L -> V, store: nat -> (L, V) -> L): nat -> seq<Instr<L, V>> {
    (p: nat) => if p <= n then [Send(n + 1, kind, what)] else RecvAll(1, n, {}, kind, store)
  }
  function CollectPlan<V>(n: nat, lo: nat, kind: string, val: nat -> V): nat -> seq<Ranked<V>> {
    (p: nat) => if p <= n then [Ranked(lo, Sent(n + 1, Msg(kind, val(p))))] else RecvAllPlan(1, n, {}, kind, val, lo)
  }

  lemma {:induction false} CollectPhase<L, V>(n: nat, entry: Cell -> V, lo: nat, kind: string, what: L -> V,
      store: nat -> (L, V) -> L, val: nat -> V, pre: nat -> L, post: nat -> L)
    requires forall p: nat | 1 <= p <= n :: val(p) == what(pre(p)) && post(p) == pre(p)
    requires post(n + 1) == Stored(pre(n + 1), 1, n, {}, val, store)
    ensures Phase(n + 1, entry, lo, lo + 2, {}, CollectCode(n, kind, what, store), CollectPlan(n, lo, kind, val), pre,
                  post)
  {
    hide Stored;
    var code: nat -> seq<Instr<L, V>>, plan := CollectCode(n, kind, what, store), CollectPlan(n, lo, kind, val);
    forall p: nat | 1 <= p <= n + 1
      ensures PartyPhase(n + 1, entry, lo, lo + 2, code(p), plan(p), pre(p), post(p)) && NoPolls(plan(p))
    {
      if p <= n {
        OnePhase(n + 1, entry, lo, lo + 2, code(p), plan(p), pre(p));
      } else {
        HubCollects(n, entry, lo, kind, store, val, pre(p));
      }
    }
    forall a: nat, b: nat | 1 <= a <= n + 1 && 1 <= b <= n + 1
      ensures Matched(false, SendsTo(plan(a), b), RecvsFrom(plan(b), a))
    {
      if a <= n { Streams1(plan(a), b); } else { RecvAllStreams(1, n, {}, kind, val, lo, b); }
      if b <= n { Streams1(plan(b), a); } else { RecvAllStreams(1, n, {}, kind, val, lo, a); }
    }
    PipesPhase(n + 1, entry, lo, lo + 2, {}, code, plan, pre, post);
  }

  lemma {:induction false} HubCollects<L, V>(n: nat, entry: Cell -> V, lo: nat, kind: string,
      store: nat -> (L, V) -> L, val: nat -> V, pre: L)
    ensures PartyPhase(n + 1, entry, lo, lo + 2, RecvAll(1, n, {}, kind, store), RecvAllPlan(1, n, {}, kind, val, lo),
                       pre, Stored(pre, 1, n, {}, val, store))
    ensures NoPolls(RecvAllPlan(1, n, {}, kind, val, lo))
  {
    RecvAllPhase(n, entry, 1, {}, kind, val, store, lo, pre);
    TidyWide(n, entry, RecvAllPlan(1, n, {}, kind, val, lo));
    RecvAllStreams(1, n, {}, kind, val, lo, 1);
  }
}

/** The communication patterns the protocols are made of, each proved to be a phase: passing down or
    up the path, broadcasting, everybody to everybody, and the pairwise exchange. */
module Patterns {
  import opened Network
  import opened Phases

  // ---- along the path: down is 1 -> 2 -> ... -> n, up is n -> ... -> 2 -> 1 ----

  /** How many parties have their turn up to and including `me`. */
  function Turn(n: nat, up: bool, me: nat): nat {
    if up then (if me > n then 0 else n + 1 - me) else me
  }

  function Before(up: bool, me: nat): nat {
    if up then me + 1 else if me == 0 then 0 else me - 1
  }

  function Next(up: bool, me: nat): nat {
    Before(!up, me)
  }

  function PassCode<L, V>(n: nat, up: bool, me: nat, kind: string, first: L -> L, store: nat -> (L, V) -> L,
      what: L -> V): seq<Instr<L, V>> {
    var get := if Turn(n, up, me) <= 1 then Let(first) else Recv(Before(up, me), kind, store(me));
    if Turn(n, up, me) == n then [get] else [get, Send(Next(up, me), kind, what)]
  }

  function PassPlan<V>(n: nat, up: bool, lo: nat, me: nat, kind: string, val: nat -> V): seq<Ranked<V>> {
    var turn := Turn(n, up, me);
    var get := if turn <= 1 then Ranked(lo + 1, Computed) else Ranked(lo + turn,
        Got(Before(up, me), Msg(kind, val(Before(up, me))), lo + turn - 1));
    if turn == n then [get] else [get, Ranked(lo + turn, Sent(Next(up, me), Msg(kind, val(me))))]
  }

  /** What a party goes through when the path passes it. */
  predicate PassStates<L(==), V(==)>(n: nat, up: bool, me: nat, first: L -> L, store: nat -> (L, V) -> L, what: L -> V,
      val: nat -> V, pre: L, post: L) {
    && post == (if Turn(n, up, me) == 1 then first(pre) else store(me)(pre, val(Before(up, me))))
    && (Turn(n, up, me) < n ==> what(post) == val(me))
  }

  lemma {:induction false} PassParty<L, V>(n: nat, entry: Cell -> V, up: bool, lo: nat, me: nat, kind: string,
      first: L -> L, store: nat -> (L, V) -> L, what: L -> V, val: nat -> V, pre: L, post: L)
    requires 1 <= me <= n && 2 <= n && PassStates(n, up, me, first, store, what, val, pre, post)
    ensures PartyPhase(n, entry, lo, lo + n + 1, PassCode(n, up, me, kind, first, store, what),
            PassPlan(n, up, lo, me, kind, val), pre, post)
  {
    if Turn(n, up, me) == n {
      OnePhase(n, entry, lo, lo + n + 1, PassCode(n, up, me, kind, first, store, what),
          PassPlan(n, up, lo, me, kind, val), pre);
    } else {
      TwoPhase(n, entry, lo, lo + n + 1, PassCode(n, up, me, kind, first, store, what),
          PassPlan(n, up, lo, me, kind, val), pre);
    }
  }

  lemma {:induction false} PassStreams<V>(n: nat, up: bool, lo: nat, me: nat, kind: string, val: nat -> V, b: nat)
    requires 1 <= me <= n && 1 <= b <= n
    ensures SendsTo(PassPlan(n, up, lo, me, kind, val), b)
            == if Turn(n, up, me) < n && b == Next(up, me) then [(Msg(kind, val(me)), lo + Turn(n, up, me))] else []
    ensures RecvsFrom(PassPlan(n, up, lo, me, kind, val), b)
            == if 1 < Turn(n, up, me) && b == Before(up, me) then [(Msg(kind, val(b)), lo + Turn(n, up, b))] else []
    ensures NoPolls(PassPlan(n, up, lo, me, kind, val))
  {
    if Turn(n, up, me) == n {
      Streams1(PassPlan(n, up, lo, me, kind, val), b);
    } else {
      Streams2(PassPlan(n, up, lo, me, kind, val), b);
    }
  }

  lemma {:induction false} PassPhase<L, V>(n: nat, entry: Cell -> V, up: bool, lo: nat, kind: string, first: L -> L,
      store: nat -> (L, V) -> L, what: L -> V, val: nat -> V, pre: nat -> L, post: nat -> L,
      code: nat -> seq<Instr<L, V>>, plan: nat -> seq<Ranked<V>>)
    requires forall p: nat | 1 <= p <= n :: code(p) == PassCode(n, up, p, kind, first, store, what)
    requires forall p: nat | 1 <= p <= n :: plan(p) == PassPlan(n, up, lo, p, kind, val)
    requires 2 <= n && forall p: nat | 1 <= p <= n :: PassStates(n, up, p, first, store, what, val, pre(p), post(p))
    ensures Phase(n, entry, lo, lo + n + 1, {}, code, plan, pre, post)
  {
    forall p: nat | 1 <= p <= n
      ensures PartyPhase(n, entry, lo, lo + n + 1, code(p), plan(p), pre(p), post(p)) && NoPolls(plan(p))
    {
      PassParty(n, entry, up, lo, p, kind, first, store, what, val, pre(p), post(p));
      PassStreams(n, up, lo, p, kind, val, p);
    }
    forall a: nat, b: nat | 1 <= a <= n && 1 <= b <= n
      ensures Matched(false, SendsTo(plan(a), b), RecvsFrom(plan(b), a))
    {
      PassStreams(n, up, lo, a, kind, val, b);
      PassStreams(n, up, lo, b, kind, val, a);
    }
    PipesPhase(n, entry, lo, lo + n + 1, {}, code, plan, pre, post);
  }

  // ---- along the path through the server's table: poll the entry of the party before, post one's
  //      own, and in the end poll the entry of the party whose turn is last ----

  function PollCode<L, V>(n: nat, up: bool, me: nat, table: Table, first: L -> L, store: nat -> (L, V) -> L,
      what: L -> V, keep: L -> L, last: (L, V) -> L): seq<Instr<L, V>> {
    [if Turn(n, up, me) <= 1 then Let(first) else Poll(Cell(table, Before(up, me)), store(me)),
     Post(Cell(table, me), what),
     if Turn(n, up, me) == n then Let(keep) else Poll(Cell(table, if up then 1 else n), last)]
  }

  function PollPlan<V>(n: nat, up: bool, lo: nat, me: nat, table: Table, entry: Cell -> V): seq<Ranked<V>> {
    var turn, end := Turn(n, up, me), Cell(table, if up then 1 else n);
    var before := Cell(table, Before(up, me));
    [Ranked(lo + turn, if turn <= 1 then Computed else Polled(before, entry(before), lo + turn - 1)),
     Ranked(lo + turn, Posted(Cell(table, me), entry(Cell(table, me)))),
     Ranked(lo + n + 1, if turn == n then Computed else Polled(end, entry(end), lo + n))]
  }

  predicate PollStates<L(==), V(==)>(n: nat, entry: Cell -> V, up: bool, me: nat, table: Table, first: L -> L,
      store: nat -> (L, V) -> L, what: L -> V, keep: L -> L, last: (L, V) -> L, pre: L, mid: L, post: L) {
    && mid == (if Turn(n, up, me) == 1 then first(pre) else store(me)(pre, entry(Cell(table, Before(up, me)))))
    && what(mid) == entry(Cell(table, me))
    && post == if Turn(n, up, me) == n then keep(mid) else last(mid, entry(Cell(table, if up then 1 else n)))
  }

  lemma {:induction false} PollParty<L, V>(n: nat, entry: Cell -> V, up: bool, lo: nat, me: nat, table: Table,
      first: L -> L, store: nat -> (L, V) -> L, what: L -> V, keep: L -> L, last: (L, V) -> L, pre: L, mid: L, post: L)
    requires 1 <= me <= n && 2 <= n && PollStates(n, entry, up, me, table, first, store, what, keep, last, pre, mid,
             post)
    ensures PartyPhase(n, entry, lo, lo + n + 2, PollCode(n, up, me, table, first, store, what, keep, last),
            PollPlan(n, up, lo, me, table, entry), pre, post)
    ensures Silent(PollPlan(n, up, lo, me, table, entry))
  {
    ThreePhase(n, entry, lo, lo + n + 2, PollCode(n, up, me, table, first, store, what, keep, last),
        PollPlan(n, up, lo, me, table, entry), pre);
  }

  /** Each party posts its entry at its turn, and polls entries only after their turn. */
  lemma {:induction false} PollTurns<V>(n: nat, entry: Cell -> V, up: bool, lo: nat, me: nat, table: Table)
    requires 1 <= me <= n
    ensures Posts(PollPlan(n, up, lo, me, table, entry), Cell(table, me), lo + Turn(n, up, me))
    ensures forall x | x in PollPlan(n, up, lo, me, table, entry) && x.ev.Polled? ::
              x.ev.cell.table == table && 1 <= x.ev.cell.id <= n && lo + Turn(n, up, x.ev.cell.id) <= x.ev.at
  {
    assert PollPlan(n, up, lo, me, table, entry)[1] in PollPlan(n, up, lo, me, table, entry);
  }

  lemma {:induction false} PollsPosted<V>(n: nat, entry: Cell -> V, up: bool, lo: nat, table: Table,
      plan: nat -> seq<Ranked<V>>)
    requires forall p: nat | 1 <= p <= n :: plan(p) == PollPlan(n, up, lo, p, table, entry)
    ensures PollsServed(n, map[], plan)
  {
    forall p: nat, x | 1 <= p <= n && x in plan(p) && x.ev.Polled?
      ensures SomePosts(n, plan, x.ev.cell, x.ev.at)
    {
      PollTurns(n, entry, up, lo, p, table);
      var q := x.ev.cell.id;
      PollTurns(n, entry, up, lo, q, table);
      assert Posts(plan(q), x.ev.cell, lo + Turn(n, up, q));
      assert Posts(plan(q), x.ev.cell, x.ev.at);
    }
  }

  lemma {:induction false} PollPhase<L, V>(n: nat, entry: Cell -> V, up: bool, lo: nat, table: Table, first: L -> L,
      store: nat -> (L, V) -> L, what: L -> V, keep: L -> L, last: (L, V) -> L, pre: nat -> L, mid: nat -> L,
      post: nat -> L, code: nat -> seq<Instr<L, V>>, plan: nat -> seq<Ranked<V>>)
    requires 2 <= n
    requires forall p: nat | 1 <= p <= n :: code(p) == PollCode(n, up, p, table, first, store, what, keep, last)
    requires forall p: nat | 1 <= p <= n :: plan(p) == PollPlan(n, up, lo, p, table, entry)
    requires forall p: nat | 1 <= p <= n :: PollStates(n, entry, up, p, table, first, store, what, keep, last, pre(p),
             mid(p), post(p))
    ensures Phase(n, entry, lo, lo + n + 2, {}, code, plan, pre, post)
  {
    PollsPosted(n, entry, up, lo, table, plan);
    forall p: nat | 1 <= p <= n
      ensures PartyPhase(n, entry, lo, lo + n + 2, code(p), plan(p), pre(p), post(p)) && Silent(plan(p))
    {
      assert PollStates(n, entry, up, p, table, first, store, what, keep, last, pre(p), mid(p), post(p));
      PollParty(n, entry, up, lo, p, table, first, store, what, keep, last, pre(p), mid(p), post(p));
    }
    SilentPhase(n, entry, lo, lo + n + 2, code, plan, pre, post);
  }

  // ---- two tables along the path, both entries polled before both are posted ----

  function Poll2Code<L, V>(n: nat, me: nat, t0: Table, t1: Table, first: L -> L, store0: (L, V) -> L,
      store1: nat -> (L, V) -> L, what0: L -> V, what1: L -> V, keep: L -> L, last: (L, V) -> L): seq<Instr<L, V>> {
    (if me <= 1 then [Let(first)] else [Poll(Cell(t0, me - 1), store0), Poll(Cell(t1, me - 1), store1(me))])
    + [Post(Cell(t0, me), what0), Post(Cell(t1, me), what1), if me == n then Let(keep) else Poll(Cell(t1, n), last)]
  }

  function Poll2In<V>(lo: nat, me: nat, t0: Table, t1: Table, entry: Cell -> V): seq<Ranked<V>> {
    if me <= 1 then [Ranked(lo + 2, Computed)]
    else [Ranked(lo + 2 * me, Polled(Cell(t0, me - 1), entry(Cell(t0, me - 1)), lo + 2 * me - 1)),
          Ranked(lo + 2 * me, Polled(Cell(t1, me - 1), entry(Cell(t1, me - 1)), lo + 2 * me - 1))]
  }

  function Poll2Out<V>(n: nat, lo: nat, me: nat, t0: Table, t1: Table, entry: Cell -> V): seq<Ranked<V>> {
    [Ranked(lo + 2 * me + 1, Posted(Cell(t0, me), entry(Cell(t0, me)))),
     Ranked(lo + 2 * me + 1, Posted(Cell(t1, me), entry(Cell(t1, me)))),
     Ranked(lo + 2 * n + 2, if me == n then Computed else Polled(Cell(t1, n), entry(Cell(t1, n)), lo + 2 * n + 1))]
  }

  predicate Poll2States<L(==), V(==)>(n: nat, entry: Cell -> V, me: nat, t0: Table, t1: Table, first: L -> L,
      store0: (L, V) -> L, store1: nat -> (L, V) -> L, what0: L -> V, what1: L -> V, keep: L -> L, last: (L, V) -> L,
      pre: L, mid: L, post: L) {
    && mid == (if me <= 1 then first(pre) else store1(me)(store0(pre, entry(Cell(t0, me - 1))),
        entry(Cell(t1, me - 1))))
    && what0(mid) == entry(Cell(t0, me)) && what1(mid) == entry(Cell(t1, me))
    && post == if me == n then keep(mid) else last(mid, entry(Cell(t1, n)))
  }

  lemma {:induction false} Poll2Party<L, V>(n: nat, entry: Cell -> V, lo: nat, me: nat, t0: Table, t1: Table,
      first: L -> L, store0: (L, V) -> L, store1: nat -> (L, V) -> L, what0: L -> V, what1: L -> V, keep: L -> L,
      last: (L, V) -> L, pre: L, mid: L, post: L)
    requires 1 <= me <= n && Poll2States(n, entry, me, t0, t1, first, store0, store1, what0, what1, keep, last, pre,
             mid, post)
    ensures PartyPhase(n, entry, lo, lo + 2 * n + 3,
            Poll2Code(n, me, t0, t1, first, store0, store1, what0, what1, keep, last),
            Poll2In(lo, me, t0, t1, entry) + Poll2Out(n, lo, me, t0, t1, entry), pre, post)
  {
    hide PartyPhase, SendsTo, RecvsFrom;
    var get := if me <= 1 then [Let(first)] else [Poll(Cell(t0, me - 1), store0), Poll(Cell(t1, me - 1), store1(me))];
    var put := [Post(Cell(t0, me), what0), Post(Cell(t1, me), what1),
                if me == n then Let(keep) else Poll(Cell(t1, n), last)];
    var got, out := Poll2In(lo, me, t0, t1, entry), Poll2Out(n, lo, me, t0, t1, entry);
    if me == 1 {
      OnePhase(n, entry, lo, lo + 2 * me + 1, get, got, pre);
    } else {
      TwoPhase(n, entry, lo, lo + 2 * me + 1, get, got, pre);
    }
    ThreePhase(n, entry, lo + 2 * me + 1, lo + 2 * n + 3, put, out, mid);
    PartyThen(n, entry, lo, lo + 2 * me + 1, lo + 2 * n + 3, get, got, pre, mid, put, out, post);
  }

  lemma {:induction false} SilentAll<V>(plan: seq<Ranked<V>>)
    requires forall x | x in plan :: !x.ev.Sent? && !x.ev.Got?
    ensures Silent(plan)
    decreases |plan|
  {
    if |plan| != 0 { SilentAll(plan[1..]); }
  }

  /** Each party posts its entries after its turn, and polls entries only after that. */
  lemma {:induction false} Poll2Turns<V>(n: nat, entry: Cell -> V, lo: nat, me: nat, t0: Table, t1: Table,
      plan: seq<Ranked<V>>)
    requires 1 <= me <= n && plan == Poll2In(lo, me, t0, t1, entry) + Poll2Out(n, lo, me, t0, t1, entry)
    ensures Posts(plan, Cell(t0, me), lo + 2 * me + 1) && Posts(plan, Cell(t1, me), lo + 2 * me + 1)
    ensures forall x | x in plan && x.ev.Polled? ::
              && (x.ev.cell.table == t0 || x.ev.cell.table == t1)
              && 1 <= x.ev.cell.id <= n && lo + 2 * x.ev.cell.id + 1 <= x.ev.at
  {
    var out := Poll2Out(n, lo, me, t0, t1, entry);
    assert out[0] in plan && out[1] in plan;
  }

  lemma {:induction false} Polls2Posted<V>(n: nat, entry: Cell -> V, lo: nat, t0: Table, t1: Table,
      plan: nat -> seq<Ranked<V>>)
    requires forall p: nat | 1 <= p <= n :: plan(p) == Poll2In(lo, p, t0, t1, entry) + Poll2Out(n, lo, p, t0, t1, entry)
    ensures PollsServed(n, map[], plan)
  {
    forall p: nat, x | 1 <= p <= n && x in plan(p) && x.ev.Polled?
      ensures SomePosts(n, plan, x.ev.cell, x.ev.at)
    {
      var q := x.ev.cell.id;
      Poll2Turns(n, entry, lo, p, t0, t1, plan(p));
      Poll2Turns(n, entry, lo, q, t0, t1, plan(q));
      assert Posts(plan(q), x.ev.cell, lo + 2 * q + 1);
      assert Posts(plan(q), x.ev.cell, x.ev.at);
    }
  }

  lemma {:induction false} Poll2Silent<V>(n: nat, entry: Cell -> V, lo: nat, me: nat, t0: Table, t1: Table)
    requires 1 <= me <= n
    ensures Silent(Poll2In(lo, me, t0, t1, entry) + Poll2Out(n, lo, me, t0, t1, entry))
  {
    hide Silent;
    SilentAll(Poll2In(lo, me, t0, t1, entry) + Poll2Out(n, lo, me, t0, t1, entry));
  }

  lemma {:induction false} Poll2Phase<L, V>(n: nat, entry: Cell -> V, lo: nat, t0: Table, t1: Table, first: L -> L,
      store0: (L, V) -> L, store1: nat -> (L, V) -> L, what0: L -> V, what1: L -> V, keep: L -> L, last: (L, V) -> L,
      pre: nat -> L, mid: nat -> L, post: nat -> L, code: nat -> seq<Instr<L, V>>, plan: nat -> seq<Ranked<V>>)
    requires forall p: nat | 1 <= p <= n :: code(p) == Poll2Code(n, p, t0, t1, first, store0, store1, what0, what1,
             keep, last)
    requires forall p: nat | 1 <= p <= n :: plan(p) == Poll2In(lo, p, t0, t1, entry) + Poll2Out(n, lo, p, t0, t1, entry)
    requires forall p: nat | 1 <= p <= n ::
               Poll2States(n, entry, p, t0, t1, first, store0, store1, what0, what1, keep, last, pre(p), mid(p),
                   post(p))
    ensures Phase(n, entry, lo, lo + 2 * n + 3, {}, code, plan, pre, post)
  {
    hide Poll2Code, Poll2In, Poll2Out, Poll2States, PartyPhase, Silent, Phase;
    Polls2Posted(n, entry, lo, t0, t1, plan);
    forall p: nat | 1 <= p <= n
      ensures PartyPhase(n, entry, lo, lo + 2 * n + 3, code(p), plan(p), pre(p), post(p)) && Silent(plan(p))
    {
      Poll2Party(n, entry, lo, p, t0, t1, first, store0, store1, what0, what1, keep, last, pre(p), mid(p), post(p));
      Poll2Silent(n, entry, lo, p, t0, t1);
    }
    SilentPhase(n, entry, lo, lo + 2 * n + 3, code, plan, pre, post);
  }

  // ---- everybody alive computes ----

  function LocalCode<L, V>(dead: set<nat>, me: nat, compute: nat -> L -> L): seq<Instr<L, V>> {
    if me in dead then [] else [Let(compute(me))]
  }

  function LocalPlan<V>(dead: set<nat>, lo: nat, me: nat): seq<Ranked<V>> {
    if me in dead then [] else [Ranked(lo, Computed)]
  }

  lemma {:induction false} LocalPhase<L, V>(n: nat, entry: Cell -> V, lo: nat, dead: set<nat>, compute: nat -> L -> L,
      pre: nat -> L, post: nat -> L, code: nat -> seq<Instr<L, V>>, plan: nat -> seq<Ranked<V>>)
    requires forall p: nat | 1 <= p <= n :: code(p) == LocalCode(dead, p, compute) && plan(p) == LocalPlan(dead, lo, p)
    requires forall p: nat | 1 <= p <= n :: post(p) == if p in dead then pre(p) else compute(p)(pre(p))
    ensures Phase(n, entry, lo, lo + 1, {}, code, plan, pre, post)
  {
    forall p: nat | 1 <= p <= n
      ensures PartyPhase(n, entry, lo, lo + 1, code(p), plan(p), pre(p), post(p)) && Silent(plan(p)) && NoPolls(plan(p))
    {
      if p in dead {
        NonePhase(n, entry, lo, lo + 1, pre(p));
      } else {
        OnePhase(n, entry, lo, lo + 1, code(p), plan(p), pre(p));
      }
    }
    PipesPhase(n, entry, lo, lo + 1, {}, code, plan, pre, post);
  }

  // ---- one party tells everybody ----

  function BroadcastCode<L, V>(src: nat, order: seq<nat>, me: nat, kind: string, keep: L -> L, what: L -> V,
      store: (L, V) -> L): seq<Instr<L, V>> {
    if me == src then [Let(keep)] + SendAll(order, kind, what) else [Recv(src, kind, store)]
  }

  function BroadcastPlan<V>(src: nat, order: seq<nat>, lo: nat, me: nat, m: Msg<V>): seq<Ranked<V>> {
    if me == src then [Ranked(lo, Computed)] + SendAllPlan(order, m, lo + 1) else [Ranked(lo + 2, Got(src, m, lo + 1))]
  }

  predicate BroadcastStates<L(==), V(==)>(src: nat, me: nat, keep: L -> L, what: L -> V, store: (L, V) -> L, val: V,
      pre: L, post: L) {
    && post == (if me == src then keep(pre) else store(pre, val))
    && (me == src ==> what(post) == val)
  }

  lemma {:induction false} BroadcastParty<L, V>(n: nat, entry: Cell -> V, lo: nat, src: nat, order: seq<nat>, me: nat,
      kind: string, keep: L -> L, what: L -> V, store: (L, V) -> L, val: V, pre: L, post: L)
    requires 1 <= me <= n && 1 <= src <= n && Others(order, src, n) && BroadcastStates(src, me, keep, what, store, val,
             pre, post)
    ensures PartyPhase(n, entry, lo, lo + 3, BroadcastCode(src, order, me, kind, keep, what, store),
            BroadcastPlan(src, order, lo, me, Msg(kind, val)), pre, post)
  {
    if me == src {
      OnePhase(n, entry, lo, lo + 1, [Let(keep)], [Ranked(lo, Computed)], pre);
      SendAllPhase(n, entry, order, kind, what, lo + 1, keep(pre));
      PartyThen(n, entry, lo, lo + 1, lo + 3, [Let(keep)], [Ranked(lo, Computed)], pre, keep(pre),
          SendAll(order, kind, what), SendAllPlan(order, Msg(kind, val), lo + 1), keep(pre));
    } else {
      OnePhase(n, entry, lo, lo + 3, [Recv(src, kind, store)], [Ranked(lo + 2, Got(src, Msg(kind, val), lo + 1))], pre);
    }
  }

  lemma {:induction false} BroadcastStreams<V>(src: nat, order: seq<nat>, lo: nat, me: nat, m: Msg<V>, b: nat)
    requires Distinct(order)
    ensures SendsTo(BroadcastPlan(src, order, lo, me, m), b) == if me == src && b in order then [(m, lo + 1)] else []
    ensures RecvsFrom(BroadcastPlan(src, order, lo, me, m), b) == if me != src && b == src then [(m, lo + 1)] else []
    ensures NoPolls(BroadcastPlan(src, order, lo, me, m))
  {
    if me == src {
      SendAllStreams(order, m, lo + 1, b);
      SendsConcat([Ranked(lo, Computed)], SendAllPlan(order, m, lo + 1), b);
      RecvsConcat([Ranked(lo, Computed)], SendAllPlan(order, m, lo + 1), b);
      Streams1<V>([Ranked(lo, Computed)], b);
    } else {
      Streams1([Ranked(lo + 2, Got(src, m, lo + 1))], b);
    }
  }

  lemma {:induction false} BroadcastPhase<L, V>(n: nat, entry: Cell -> V, lo: nat, src: nat, order: seq<nat>,
      kind: string, keep: L -> L, what: L -> V, store: (L, V) -> L, val: V, pre: nat -> L, post: nat -> L,
      code: nat -> seq<Instr<L, V>>, plan: nat -> seq<Ranked<V>>)
    requires forall p: nat | 1 <= p <= n :: code(p) == BroadcastCode(src, order, p, kind, keep, what, store)
    requires forall p: nat | 1 <= p <= n :: plan(p) == BroadcastPlan(src, order, lo, p, Msg(kind, val))
    requires 1 <= src <= n && Others(order, src, n)
    requires forall p: nat | 1 <= p <= n :: BroadcastStates(src, p, keep, what, store, val, pre(p), post(p))
    ensures Phase(n, entry, lo, lo + 3, {}, code, plan, pre, post)
  {
    forall p: nat | 1 <= p <= n
      ensures PartyPhase(n, entry, lo, lo + 3, code(p), plan(p), pre(p), post(p)) && NoPolls(plan(p))
    {
      BroadcastParty(n, entry, lo, src, order, p, kind, keep, what, store, val, pre(p), post(p));
      BroadcastStreams(src, order, lo, p, Msg(kind, val), p);
    }
    forall a: nat, b: nat | 1 <= a <= n && 1 <= b <= n
      ensures Matched(false, SendsTo(plan(a), b), RecvsFrom(plan(b), a))
    {
      BroadcastStreams(src, order, lo, a, Msg(kind, val), b);
      BroadcastStreams(src, order, lo, b, Msg(kind, val), a);
    }
    PipesPhase(n, entry, lo, lo + 3, {}, code, plan, pre, post);
  }

  // ---- everybody alive tells everybody and hears from everybody alive ----

  function EveryoneCode<L, V>(n: nat, order: seq<nat>, dead: set<nat>, me: nat, kind: string, what: L -> V,
      store: nat -> (L, V) -> L): seq<Instr<L, V>> {
    if me in dead then [] else SendAll(order, kind, what) + RecvAll(1, n, {me} + dead, kind, store)
  }

  function EveryonePlan<V>(n: nat, order: seq<nat>, dead: set<nat>, lo: nat, me: nat, kind: string,
      val: nat -> V): seq<Ranked<V>> {
    if me in dead then []
    else SendAllPlan(order, Msg(kind, val(me)), lo) + RecvAllPlan(1, n, {me} + dead, kind, val, lo)
  }

  lemma {:induction false} EveryoneParty<L, V>(n: nat, entry: Cell -> V, lo: nat, order: seq<nat>, dead: set<nat>,
      me: nat, kind: string, what: L -> V, store: nat -> (L, V) -> L, val: nat -> V, pre: L)
    requires 1 <= me <= n && Others(order, me, n) && (me !in dead ==> val(me) == what(pre))
    ensures PartyPhase(n, entry, lo, lo + 2, EveryoneCode(n, order, dead, me, kind, what, store),
             EveryonePlan(n, order, dead, lo, me, kind, val),
                       pre, if me in dead then pre else Stored(pre, 1, n, {me} + dead, val, store))
  {
    if me in dead {
      NonePhase(n, entry, lo, lo + 2, pre);
    } else {
      SendAllPhase(n, entry, order, kind, what, lo, pre);
      RecvAllPhase(n, entry, 1, {me} + dead, kind, val, store, lo, pre);
      PartyThen(n, entry, lo, lo + 1, lo + 2, SendAll(order, kind, what), SendAllPlan(order, Msg(kind, val(me)), lo),
          pre, pre, RecvAll(1, n, {me} + dead, kind, store), RecvAllPlan(1, n, {me} + dead, kind, val, lo),
          Stored(pre, 1, n, {me} + dead, val, store));
    }
  }

  lemma {:induction false} EveryoneStreams<V>(n: nat, order: seq<nat>, dead: set<nat>, lo: nat, me: nat, kind: string,
      val: nat -> V, b: nat)
    requires Distinct(order)
    ensures SendsTo(EveryonePlan(n, order, dead, lo, me, kind, val), b) == if me !in dead
             && b in order then [(Msg(kind, val(me)), lo)] else []
    ensures RecvsFrom(EveryonePlan(n, order, dead, lo, me, kind, val), b)
            == if me !in dead && 1 <= b <= n && b != me && b !in dead then [(Msg(kind, val(b)), lo)] else []
    ensures NoPolls(EveryonePlan(n, order, dead, lo, me, kind, val))
  {
    SendAllStreams(order, Msg(kind, val(me)), lo, b);
    RecvAllStreams(1, n, {me} + dead, kind, val, lo, b);
    SendsConcat(SendAllPlan(order, Msg(kind, val(me)), lo), RecvAllPlan(1, n, {me} + dead, kind, val, lo), b);
    RecvsConcat(SendAllPlan(order, Msg(kind, val(me)), lo), RecvAllPlan(1, n, {me} + dead, kind, val, lo), b);
  }

  lemma {:induction false} EveryonePhase<L, V>(n: nat, entry: Cell -> V, lo: nat, order: nat -> seq<nat>,
      dead: set<nat>, kind: string, what: L -> V, store: nat -> (L, V) -> L, val: nat -> V, pre: nat -> L,
      post: nat -> L, code: nat -> seq<Instr<L, V>>, plan: nat -> seq<Ranked<V>>)
    requires forall p: nat | 1 <= p <= n :: code(p) == EveryoneCode(n, order(p), dead, p, kind, what, store)
    requires forall p: nat | 1 <= p <= n :: plan(p) == EveryonePlan(n, order(p), dead, lo, p, kind, val)
    requires forall p: nat | 1 <= p <= n :: Others(order(p), p, n) && (p !in dead ==> val(p) == what(pre(p)))
    requires forall p: nat | 1 <= p <= n :: post(p) == if p in dead then pre(p) else Stored(pre(p), 1, n, {p} + dead,
             val, store)
    ensures Phase(n, entry, lo, lo + 2, dead, code, plan, pre, post)
  {
    forall p: nat | 1 <= p <= n
      ensures PartyPhase(n, entry, lo, lo + 2, code(p), plan(p), pre(p), post(p)) && NoPolls(plan(p))
    {
      EveryoneParty(n, entry, lo, order(p), dead, p, kind, what, store, val, pre(p));
      EveryoneStreams(n, order(p), dead, lo, p, kind, val, p);
    }
    forall a: nat, b: nat | 1 <= a <= n && 1 <= b <= n
      ensures Matched(b in dead, SendsTo(plan(a), b), RecvsFrom(plan(b), a))
    {
      assert Others(order(a), a, n) && Others(order(b), b, n);
      EveryoneStreams(n, order(a), dead, lo, a, kind, val, b);
      EveryoneStreams(n, order(b), dead, lo, b, kind, val, a);
    }
    PipesPhase(n, entry, lo, lo + 2, dead, code, plan, pre, post);
  }

  // ---- every pair exchanges: each party walks the ids upwards, sends, then waits for that peer ----

  function ExchangeCode<L, V>(i: nat, n: nat, me: nat, kind: string, val: (nat, nat) -> V,
      store: nat -> (L, V) -> L): seq<Instr<L, V>>
    decreases n + 1 - i
  {
    if i > n then []
    else (if i == me then [] else [Send(i, kind, (st: L) => val(me, i)), Recv(i, kind, store(i))]) + ExchangeCode(i + 1,
        n, me, kind, val, store)
  }

  function ExchangePlan<V>(i: nat, n: nat, lo: nat, me: nat, kind: string, val: (nat, nat) -> V): seq<Ranked<V>>
    decreases n + 1 - i
  {
    if i > n then [] else ExchangeWith(i, lo, me, kind, val) + ExchangePlan(i + 1, n, lo, me, kind, val)
  }

  /** The rank of the exchange between me and i grows with both ids and is the same on both sides. */
  function ExchangeWith<V>(i: nat, lo: nat, me: nat, kind: string, val: (nat, nat) -> V): seq<Ranked<V>> {
    if i == me then []
    else [Ranked(lo + 2 * (me + i), Sent(i, Msg(kind, val(me, i)))), Ranked(lo + 2 * (me + i) + 1,
        Got(i, Msg(kind, val(i, me)), lo + 2 * (me + i)))]
  }

  function Exchanged<L, V>(st: L, i: nat, n: nat, me: nat, val: (nat, nat) -> V, store: nat -> (L, V) -> L): L
    decreases n + 1 - i
  {
    if i > n then st else Exchanged(if i == me then st else store(i)(st, val(i, me)), i + 1, n, me, val, store)
  }

  lemma {:induction false} ExchangeParty<L, V>(n: nat, entry: Cell -> V, lo: nat, i: nat, me: nat, kind: string,
      val: (nat, nat) -> V, store: nat -> (L, V) -> L, pre: L)
    requires 1 <= me <= n && 1 <= i <= n + 1
    ensures PartyPhase(n, entry, lo + 2 * (me + i), lo + 4 * n + 2, ExchangeCode(i, n, me, kind, val, store),
            ExchangePlan(i, n, lo, me, kind, val), pre, Exchanged(pre, i, n, me, val, store))
    decreases n + 1 - i
  {
    if i <= n {
      var mid := if i == me then pre else store(i)(pre, val(i, me));
      var code := if i == me then [] else [Send(i, kind, (st: L) => val(me, i)), Recv(i, kind, store(i))];
      if i != me {
        TwoPhase(n, entry, lo + 2 * (me + i), lo + 2 * (me + i + 1), code, ExchangeWith(i, lo, me, kind, val), pre);
      }
      ExchangeParty(n, entry, lo, i + 1, me, kind, val, store, mid);
      PartyThen(n, entry, lo + 2 * (me + i), lo + 2 * (me + i + 1), lo + 4 * n + 2, code,
          ExchangeWith(i, lo, me, kind, val), pre, mid, ExchangeCode(i + 1, n, me, kind, val, store),
          ExchangePlan(i + 1, n, lo, me, kind, val), Exchanged(pre, i, n, me, val, store));
    }
  }

  lemma {:induction false} ExchangeStreams<V>(n: nat, i: nat, lo: nat, me: nat, kind: string, val: (nat, nat) -> V,
      b: nat)
    requires 1 <= i <= n + 1
    ensures SendsTo(ExchangePlan(i, n, lo, me, kind, val), b) == if i <= b <= n
             && b != me then [(Msg(kind, val(me, b)), lo + 2 * (me + b))] else []
    ensures RecvsFrom(ExchangePlan(i, n, lo, me, kind, val), b) == if i <= b <= n
             && b != me then [(Msg(kind, val(b, me)), lo + 2 * (me + b))] else []
    ensures NoPolls(ExchangePlan(i, n, lo, me, kind, val))
    decreases n + 1 - i
  {
    if i <= n {
      var with := ExchangeWith(i, lo, me, kind, val);
      ExchangeStreams(n, i + 1, lo, me, kind, val, b);
      SendsConcat(with, ExchangePlan(i + 1, n, lo, me, kind, val), b);
      RecvsConcat(with, ExchangePlan(i + 1, n, lo, me, kind, val), b);
      if i != me {
        Streams2(with, b);
      }
    }
  }

  lemma {:induction false} ExchangePhase<L, V>(n: nat, entry: Cell -> V, lo: nat, kind: string, val: (nat, nat) -> V,
      store: nat -> (L, V) -> L, pre: nat -> L, post: nat -> L, code: nat -> seq<Instr<L, V>>,
      plan: nat -> seq<Ranked<V>>)
    requires forall p: nat | 1 <= p <= n :: code(p) == ExchangeCode(1, n, p, kind, val, store)
    requires forall p: nat | 1 <= p <= n :: plan(p) == ExchangePlan(1, n, lo, p, kind, val)
    requires forall p: nat | 1 <= p <= n :: post(p) == Exchanged(pre(p), 1, n, p, val, store)
    ensures Phase(n, entry, lo, lo + 4 * n + 2, {}, code, plan, pre, post)
  {
    forall p: nat | 1 <= p <= n
      ensures PartyPhase(n, entry, lo, lo + 4 * n + 2, code(p), plan(p), pre(p), post(p)) && NoPolls(plan(p))
    {
      ExchangeParty(n, entry, lo, 1, p, kind, val, store, pre(p));
      ExchangeStreams(n, 1, lo, p, kind, val, p);
    }
    forall a: nat, b: nat | 1 <= a <= n && 1 <= b <= n
      ensures Matched(false, SendsTo(plan(a), b), RecvsFrom(plan(b), a))
    {
      ExchangeStreams(n, 1, lo, a, kind, val, b);
      ExchangeStreams(n, 1, lo, b, kind, val, a);
    }
    PipesPhase(n, entry, lo, lo + 4 * n + 2, {}, code, plan, pre, post);
  }

  // ---- two messages down the path, both received before both are sent ----

  function Down2Code<L, V>(n: nat, me: nat, kind0: string, kind1: string, first: L -> L, store0: (L, V) -> L,
      store1: nat -> (L, V) -> L, what0: L -> V, what1: L -> V): seq<Instr<L, V>> {
    (if me <= 1 then [Let(first)] else [Recv(me - 1, kind0, store0), Recv(me - 1, kind1, store1(me))])
    + (if me >= n then [] else [Send(me + 1, kind0, what0), Send(me + 1, kind1, what1)])
  }

  function Down2In<V>(lo: nat, me: nat, m0: nat -> Msg<V>, m1: nat -> Msg<V>): seq<Ranked<V>> {
    if me <= 1 then [Ranked(lo + 2, Computed)]
    else [Ranked(lo + 2 * me, Got(me - 1, m0(me - 1), lo + 2 * me - 1)),
        Ranked(lo + 2 * me, Got(me - 1, m1(me - 1), lo + 2 * me - 1))]
  }

  function Down2Out<V>(n: nat, lo: nat, me: nat, m0: nat -> Msg<V>, m1: nat -> Msg<V>): seq<Ranked<V>> {
    if me >= n then [] else [Ranked(lo + 2 * me + 1, Sent(me + 1, m0(me))),
        Ranked(lo + 2 * me + 1, Sent(me + 1, m1(me)))]
  }

  function Down2Plan<V>(n: nat, lo: nat, me: nat, m0: nat -> Msg<V>, m1: nat -> Msg<V>): seq<Ranked<V>> {
    Down2In(lo, me, m0, m1) + Down2Out(n, lo, me, m0, m1)
  }

  predicate Down2States<L(==), V(==)>(n: nat, me: nat, first: L -> L, store0: (L, V) -> L, store1: nat -> (L, V) -> L,
      what0: L -> V, what1: L -> V, m0: nat -> Msg<V>, m1: nat -> Msg<V>, pre: L, post: L) {
    && post == (if me <= 1 then first(pre) else store1(me)(store0(pre, m0(me - 1).val), m1(me - 1).val))
    && (me < n ==> what0(post) == m0(me).val && what1(post) == m1(me).val)
  }

  lemma {:induction false} Down2Party<L, V>(n: nat, entry: Cell -> V, lo: nat, me: nat, kind0: string, kind1: string,
      first: L -> L, store0: (L, V) -> L, store1: nat -> (L, V) -> L, what0: L -> V, what1: L -> V, m0: nat -> Msg<V>,
      m1: nat -> Msg<V>, pre: L, post: L)
    requires 1 <= me <= n && forall p: nat :: m0(p).kind == kind0 && m1(p).kind == kind1
    requires Down2States(n, me, first, store0, store1, what0, what1, m0, m1, pre, post)
    ensures PartyPhase(n, entry, lo, lo + 2 * n + 2,
            Down2Code(n, me, kind0, kind1, first, store0, store1, what0, what1), Down2Plan(n, lo, me, m0, m1), pre,
            post)
  {
    var get := if me <= 1 then [Let(first)] else [Recv(me - 1, kind0, store0), Recv(me - 1, kind1, store1(me))];
    var put := if me >= n then [] else [Send(me + 1, kind0, what0), Send(me + 1, kind1, what1)];
    if me == 1 {
      OnePhase(n, entry, lo, lo + 2 * me + 1, get, Down2In(lo, me, m0, m1), pre);
    } else {
      TwoPhase(n, entry, lo, lo + 2 * me + 1, get, Down2In(lo, me, m0, m1), pre);
    }
    if me < n {
      TwoPhase(n, entry, lo + 2 * me + 1, lo + 2 * n + 2, put, Down2Out(n, lo, me, m0, m1), post);
    }
    PartyThen(n, entry, lo, lo + 2 * me + 1, lo + 2 * n + 2, get, Down2In(lo, me, m0, m1), pre, post, put,
        Down2Out(n, lo, me, m0, m1), post);
  }

  lemma {:induction false} Down2Streams<V>(n: nat, lo: nat, me: nat, m0: nat -> Msg<V>, m1: nat -> Msg<V>, b: nat)
    ensures SendsTo(Down2Plan(n, lo, me, m0, m1), b)
            == if me < n && b == me + 1 then [(m0(me), lo + 2 * me + 1), (m1(me), lo + 2 * me + 1)] else []
    ensures RecvsFrom(Down2Plan(n, lo, me, m0, m1), b)
            == if 1 < me && b == me - 1 then [(m0(b), lo + 2 * b + 1), (m1(b), lo + 2 * b + 1)] else []
    ensures NoPolls(Down2Plan(n, lo, me, m0, m1))
  {
    var get, put := Down2In(lo, me, m0, m1), Down2Out(n, lo, me, m0, m1);
    SendsConcat(get, put, b);
    RecvsConcat(get, put, b);
    if me <= 1 { Streams1(get, b); } else { Streams2(get, b); }
    if me < n { Streams2(put, b); }
  }

  lemma {:induction false} Down2Phase<L, V>(n: nat, entry: Cell -> V, lo: nat, kind0: string, kind1: string,
      first: L -> L, store0: (L, V) -> L, store1: nat -> (L, V) -> L, what0: L -> V, what1: L -> V, m0: nat -> Msg<V>,
      m1: nat -> Msg<V>, pre: nat -> L, post: nat -> L, code: nat -> seq<Instr<L, V>>, plan: nat -> seq<Ranked<V>>)
    requires forall p: nat | 1 <= p <= n :: code(p) == Down2Code(n, p, kind0, kind1, first, store0, store1, what0,
             what1)
    requires forall p: nat | 1 <= p <= n :: plan(p) == Down2Plan(n, lo, p, m0, m1)
    requires forall p: nat :: m0(p).kind == kind0 && m1(p).kind == kind1
    requires forall p: nat | 1 <= p <= n :: Down2States(n, p, first, store0, store1, what0, what1, m0, m1, pre(p),
             post(p))
    ensures Phase(n, entry, lo, lo + 2 * n + 2, {}, code, plan, pre, post)
  {
    forall p: nat | 1 <= p <= n
      ensures PartyPhase(n, entry, lo, lo + 2 * n + 2, code(p), plan(p), pre(p), post(p)) && NoPolls(plan(p))
    {
      Down2Party(n, entry, lo, p, kind0, kind1, first, store0, store1, what0, what1, m0, m1, pre(p), post(p));
      Down2Streams(n, lo, p, m0, m1, p);
    }
    forall a: nat, b: nat | 1 <= a <= n && 1 <= b <= n
      ensures Matched(false, SendsTo(plan(a), b), RecvsFrom(plan(b), a))
    {
      Down2Streams(n, lo, a, m0, m1, b);
      Down2Streams(n, lo, b, m0, m1, a);
    }
    PipesPhase(n, entry, lo, lo + 2 * n + 2, {}, code, plan, pre, post);
  }

  // ---- party 1 gathers from everybody alive, computes, and tells them the result ----

  /** The ids of i..n outside `skip`, upwards. */
  function LiveIds(i: nat, n: nat, skip: set<nat>): seq<nat>
    decreases n + 1 - i
  {
    if i > n then [] else if i in skip then LiveIds(i + 1, n, skip) else [i] + LiveIds(i + 1, n, skip)
  }

  lemma {:induction false} LiveIdsAre(i: nat, n: nat, skip: set<nat>)
    ensures forall j: nat :: j in LiveIds(i, n, skip) <==> i <= j <= n && j !in skip
    ensures Distinct(LiveIds(i, n, skip))
    decreases n + 1 - i
  {
    if i <= n {
      LiveIdsAre(i + 1, n, skip);
      if i !in skip {
        assert LiveIds(i, n, skip)[1..] == LiveIds(i + 1, n, skip);
        assert i !in LiveIds(i + 1, n, skip);
      }
    }
  }

  function GatherCode<L, V>(n: nat, dead: set<nat>, me: nat, kind0: string, begin: L -> L, what0: nat -> L -> V,
      store0: nat -> (L, V) -> L, compute: L -> L, kind1: string, what1: L -> V,
      store1: nat -> (L, V) -> L): seq<Instr<L, V>> {
    if me in dead then []
    else if me == 1 then
      [Let(begin)] + RecvAll(1, n, {1} + dead, kind0, store0) + ([Let(compute)] + SendAll(LiveIds(1, n, {1} + dead),
          kind1, what1))
    else [Send(1, kind0, what0(me)), Recv(1, kind1, store1(me))]
  }

  function GatherPlan<V>(n: nat, dead: set<nat>, lo: nat, me: nat, kind0: string, val0: nat -> V,
      m1: Msg<V>): seq<Ranked<V>> {
    if me in dead then []
    else if me == 1 then
      [Ranked(lo, Computed)] + RecvAllPlan(1, n, {1} + dead, kind0, val0, lo)
      + ([Ranked(lo + 2, Computed)] + SendAllPlan(LiveIds(1, n, {1} + dead), m1, lo + 3))
    else [Ranked(lo, Sent(1, Msg(kind0, val0(me)))), Ranked(lo + 4, Got(1, m1, lo + 3))]
  }

  lemma {:induction false} GatherHub<L, V>(n: nat, entry: Cell -> V, dead: set<nat>, lo: nat, kind0: string,
      begin: L -> L, what0: nat -> L -> V, store0: nat -> (L, V) -> L, compute: L -> L, kind1: string, what1: L -> V,
      store1: nat -> (L, V) -> L, val0: nat -> V, m1: Msg<V>, pre: L, post: L)
    requires 1 <= n && 1 !in dead && m1 == Msg(kind1, what1(post))
    requires post == compute(Stored(begin(pre), 1, n, {1} + dead, val0, store0))
    ensures PartyPhase(n, entry, lo, lo + 5,
            GatherCode(n, dead, 1, kind0, begin, what0, store0, compute, kind1, what1, store1),
            GatherPlan(n, dead, lo, 1, kind0, val0, m1), pre, post)
  {
    var live, skip := LiveIds(1, n, {1} + dead), {1} + dead;
    var gathered := Stored(begin(pre), 1, n, skip, val0, store0);
    LiveIdsAre(1, n, skip);
    OnePhase(n, entry, lo, lo + 1, [Let(begin)], [Ranked(lo, Computed)], pre);
    RecvAllPhase(n, entry, 1, skip, kind0, val0, store0, lo, begin(pre));
    PartyThen(n, entry, lo, lo + 1, lo + 2, [Let(begin)], [Ranked(lo, Computed)], pre, begin(pre),
        RecvAll(1, n, skip, kind0, store0), RecvAllPlan(1, n, skip, kind0, val0, lo), gathered);
    OnePhase(n, entry, lo + 2, lo + 3, [Let(compute)], [Ranked(lo + 2, Computed)], gathered);
    SendAllPhase(n, entry, live, kind1, what1, lo + 3, post);
    PartyThen(n, entry, lo + 2, lo + 3, lo + 5, [Let(compute)], [Ranked(lo + 2, Computed)], gathered, post,
        SendAll(live, kind1, what1), SendAllPlan(live, m1, lo + 3), post);
    PartyThen(n, entry, lo, lo + 2, lo + 5, [Let(begin)] + RecvAll(1, n, skip, kind0, store0),
        [Ranked(lo, Computed)] + RecvAllPlan(1, n, skip, kind0, val0, lo), pre, gathered,
        [Let(compute)] + SendAll(live, kind1, what1), [Ranked(lo + 2, Computed)] + SendAllPlan(live, m1, lo + 3), post);
  }

  lemma {:induction false} GatherStreams<V>(n: nat, dead: set<nat>, lo: nat, me: nat, kind0: string, val0: nat -> V,
      m1: Msg<V>, b: nat)
    requires 1 <= me <= n && 1 !in dead
    ensures SendsTo(GatherPlan(n, dead, lo, me, kind0, val0, m1), b)
            == if me in dead then [] else if me == 1 then (if 1 < b <= n && b !in dead then [(m1, lo + 3)] else [])
               else if b == 1 then [(Msg(kind0, val0(me)), lo)] else []
    ensures RecvsFrom(GatherPlan(n, dead, lo, me, kind0, val0, m1), b)
            == if me in dead then [] else if me == 1 then (if 1 < b <= n
                && b !in dead then [(Msg(kind0, val0(b)), lo)] else [])
               else if b == 1 then [(m1, lo + 3)] else []
    ensures NoPolls(GatherPlan(n, dead, lo, me, kind0, val0, m1))
  {
    var live, skip := LiveIds(1, n, {1} + dead), {1} + dead;
    if me in dead {
    } else if me == 1 {
      LiveIdsAre(1, n, skip);
      var get, put := RecvAllPlan(1, n, skip, kind0, val0, lo), SendAllPlan(live, m1, lo + 3);
      RecvAllStreams(1, n, skip, kind0, val0, lo, b);
      SendAllStreams(live, m1, lo + 3, b);
      Streams1<V>([Ranked(lo, Computed)], b);
      Streams1<V>([Ranked(lo + 2, Computed)], b);
      ConcatStreams([Ranked(lo, Computed)], get, b);
      ConcatStreams([Ranked(lo + 2, Computed)], put, b);
      ConcatStreams([Ranked(lo, Computed)] + get, [Ranked(lo + 2, Computed)] + put, b);
    } else {
      Streams2(GatherPlan(n, dead, lo, me, kind0, val0, m1), b);
    }
  }

  lemma {:induction false} ConcatStreams<V>(p: seq<Ranked<V>>, q: seq<Ranked<V>>, b: nat)
    ensures SendsTo(p + q, b) == SendsTo(p, b) + SendsTo(q, b) && RecvsFrom(p + q, b) == RecvsFrom(p, b) + RecvsFrom(q,
             b)
  {
    SendsConcat(p, q, b);
    RecvsConcat(p, q, b);
  }

  lemma {:induction false} GatherPhase<L, V>(n: nat, entry: Cell -> V, lo: nat, dead: set<nat>, kind0: string,
      begin: L -> L, what0: nat -> L -> V, store0: nat -> (L, V) -> L, compute: L -> L, kind1: string, what1: L -> V,
      store1: nat -> (L, V) -> L, val0: nat -> V, m1: Msg<V>, pre: nat -> L, post: nat -> L,
      code: nat -> seq<Instr<L, V>>, plan: nat -> seq<Ranked<V>>)
    requires forall p: nat | 1 <= p <= n :: code(p) == GatherCode(n, dead, p, kind0, begin, what0, store0, compute,
             kind1, what1, store1)
    requires forall p: nat | 1 <= p <= n :: plan(p) == GatherPlan(n, dead, lo, p, kind0, val0, m1)
    requires 1 <= n && 1 !in dead && m1 == Msg(kind1, what1(post(1)))
    requires post(1) == compute(Stored(begin(pre(1)), 1, n, {1} + dead, val0, store0))
    requires forall p: nat | 1 < p <= n && p !in dead ::
               val0(p) == what0(p)(pre(p)) && post(p) == store1(p)(pre(p), m1.val)
    requires forall p: nat | p in dead :: post(p) == pre(p)
    ensures Phase(n, entry, lo, lo + 5, {}, code, plan, pre, post)
  {
    forall p: nat | 1 <= p <= n
      ensures PartyPhase(n, entry, lo, lo + 5, code(p), plan(p), pre(p), post(p)) && NoPolls(plan(p))
    {
      GatherStreams(n, dead, lo, p, kind0, val0, m1, p);
      if p == 1 {
        GatherHub(n, entry, dead, lo, kind0, begin, what0, store0, compute, kind1, what1, store1, val0, m1, pre(p),
            post(p));
      } else if p !in dead {
        TwoPhase(n, entry, lo, lo + 5, code(p), plan(p), pre(p));
      }
    }
    forall a: nat, b: nat | 1 <= a <= n && 1 <= b <= n
      ensures Matched(false, SendsTo(plan(a), b), RecvsFrom(plan(b), a))
    {
      GatherStreams(n, dead, lo, a, kind0, val0, m1, b);
      GatherStreams(n, dead, lo, b, kind0, val0, m1, a);
    }
    PipesPhase(n, entry, lo, lo + 5, {}, code, plan, pre, post);
  }

  // ---- everybody posts to the server's table and polls everybody else's entry ----

  function PollAll<L, V>(i: nat, n: nat, skip: set<nat>, table: Table, store: nat -> (L, V) -> L): seq<Instr<L, V>>
    decreases n + 1 - i
  {
    if i > n then [] else if i in skip then PollAll(i + 1, n, skip, table, store)
    else [Poll(Cell(table, i), store(i))] + PollAll(i + 1, n, skip, table, store)
  }

  function PollAllPlan<V>(i: nat, n: nat, skip: set<nat>, table: Table, val: nat -> V, at: nat): (r: seq<Ranked<V>>)
    ensures forall x | x in r :: x.ev.Polled? && x.ev.cell.table == table && i <= x.ev.cell.id <= n && x.ev.at == at
    decreases n + 1 - i
  {
    if i > n then [] else if i in skip then PollAllPlan(i + 1, n, skip, table, val, at)
    else [Ranked(at + 1, Polled(Cell(table, i), val(i), at))] + PollAllPlan(i + 1, n, skip, table, val, at)
  }

  lemma {:induction false} PollAllParty<L, V>(n: nat, entry: Cell -> V, i: nat, skip: set<nat>, table: Table,
      val: nat -> V, store: nat -> (L, V) -> L, at: nat, pre: L)
    requires forall j: nat :: val(j) == entry(Cell(table, j))
    ensures PartyPhase(n, entry, at + 1, at + 2, PollAll(i, n, skip, table, store),
            PollAllPlan(i, n, skip, table, val, at), pre, Stored(pre, i, n, skip, val, store))
    decreases n + 1 - i
  {
    if i <= n {
      var st := if i in skip then pre else store(i)(pre, val(i));
      PollAllParty(n, entry, i + 1, skip, table, val, store, at, st);
      if i !in skip {
        assert PollAll(i, n, skip, table, store)[1..] == PollAll(i + 1, n, skip, table, store);
        assert PollAllPlan(i, n, skip, table, val, at)[1..] == PollAllPlan(i + 1, n, skip, table, val, at);
      }
    }
  }

  function PublishCode<L, V>(n: nat, me: nat, table: Table, what: L -> V, store: nat -> (L, V) -> L): seq<Instr<L, V>> {
    [Post(Cell(table, me), what)] + PollAll(1, n, {me}, table, store)
  }

  function PublishPlan<V>(n: nat, lo: nat, me: nat, table: Table, val: nat -> V): seq<Ranked<V>> {
    [Ranked(lo, Posted(Cell(table, me), val(me)))] + PollAllPlan(1, n, {me}, table, val, lo)
  }

  lemma {:induction false} PublishParty<L, V>(n: nat, entry: Cell -> V, lo: nat, me: nat, table: Table, what: L -> V,
      store: nat -> (L, V) -> L, val: nat -> V, pre: L)
    requires (forall j: nat :: val(j) == entry(Cell(table, j))) && val(me) == what(pre)
    ensures PartyPhase(n, entry, lo, lo + 2, PublishCode(n, me, table, what, store), PublishPlan(n, lo, me, table, val),
            pre, Stored(pre, 1, n, {me}, val, store))
    ensures Silent(PublishPlan(n, lo, me, table, val))
    ensures Posts(PublishPlan(n, lo, me, table, val), Cell(table, me), lo)
  {
    hide PartyPhase, Stored, Silent;
    var post, posted := [Post(Cell(table, me), what)], [Ranked(lo, Posted(Cell(table, me), val(me)))];
    OnePhase(n, entry, lo, lo + 1, post, posted, pre);
    PollAllParty(n, entry, 1, {me}, table, val, store, lo, pre);
    PartyThen(n, entry, lo, lo + 1, lo + 2, post, posted, pre, pre, PollAll(1, n, {me}, table, store),
        PollAllPlan(1, n, {me}, table, val, lo), Stored(pre, 1, n, {me}, val, store));
    SilentAll(PublishPlan(n, lo, me, table, val));
    assert PublishPlan(n, lo, me, table, val)[0] in PublishPlan(n, lo, me, table, val);
  }

  lemma {:induction false} PublishPhase<L, V>(n: nat, entry: Cell -> V, lo: nat, table: Table, what: L -> V,
      store: nat -> (L, V) -> L, val: nat -> V, pre: nat -> L, post: nat -> L, code: nat -> seq<Instr<L, V>>,
      plan: nat -> seq<Ranked<V>>)
    requires forall p: nat | 1 <= p <= n ::
               code(p) == PublishCode(n, p, table, what, store) && plan(p) == PublishPlan(n, lo, p, table, val)
    requires forall j: nat :: val(j) == entry(Cell(table, j))
    requires forall p: nat | 1 <= p <= n ::
               val(p) == what(pre(p)) && post(p) == Stored(pre(p), 1, n, {p}, val, store)
    ensures Phase(n, entry, lo, lo + 2, {}, code, plan, pre, post)
  {
    hide PartyPhase, Stored, Silent, Posts, PublishCode;
    forall p: nat | 1 <= p <= n
      ensures PartyPhase(n, entry, lo, lo + 2, code(p), plan(p), pre(p), post(p)) && Silent(plan(p))
      ensures Posts(plan(p), Cell(table, p), lo)
    {
      PublishParty(n, entry, lo, p, table, what, store, val, pre(p));
    }
    forall p: nat, x | 1 <= p <= n && x in plan(p) && x.ev.Polled?
      ensures SomePosts(n, plan, x.ev.cell, x.ev.at)
    {
      assert Posts(plan(x.ev.cell.id), x.ev.cell, x.ev.at);
    }
    SilentPhase(n, entry, lo, lo + 2, code, plan, pre, post);
  }
}

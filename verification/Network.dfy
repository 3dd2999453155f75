/** Parties that run their code step by step over first-in first-out pipes and a shared table, in
    any interleaving, and the theorem that a plan which fits the code decides every run.
    L is the local state of a party, V what its messages and table entries carry. */
module Network {

  /** The server's tables, each with one entry per client. */
  datatype Table =
    | PublicKeys | EvalMultKeys | EvalMixMultKeys | EvalSumKeys0 | EvalSumKeys1
    | SecretShares | CipherTexts
  datatype Cell = Cell(table: Table, id: nat)
  datatype Msg<+V> = Msg(kind: string, val: V)

  /** One statement of a party: send, receive, post to the server's table, poll the table until the
      entry is there, or compute. */
  datatype Instr<!L, !V> =
    | Send(to: nat, kind: string, what: L -> V)
    | Recv(from: nat, kind: string, store: (L, V) -> L)
    | Post(cell: Cell, what: L -> V)
    | Poll(cell: Cell, store: (L, V) -> L)
    | Let(compute: L -> L)

  datatype Party<!L, !V> = Party(code: seq<Instr<L, V>>, st: L, ok: bool)

  /** All party states, the pipe from each party to each other one, and the server's table. */
  datatype Net<!L, !V> = Net(party: map<nat, Party<L, V>>, pipe: map<(nat, nat), seq<Msg<V>>>, table: map<Cell, V>)

  function Pipe<L, V>(net: Net<L, V>, a: nat, b: nat): seq<Msg<V>> {
    if (a, b) in net.pipe then net.pipe[(a, b)] else []
  }

  /** Party p waits: it has no code left, or its next receive or poll finds nothing yet. */
  predicate Waits<L, V>(net: Net<L, V>, p: nat)
    requires p in net.party
  {
    var code := net.party[p].code;
    || |code| == 0
    || (code[0].Recv? && |Pipe(net, code[0].from, p)| == 0)
    || (code[0].Poll? && code[0].cell !in net.table)
  }

  /** One statement of party p. A receive whose pipe has a message of another kind in front has
      gone wrong: an untyped receive would misread it and a typed one would discard it. */
  function After<L, V>(net: Net<L, V>, p: nat): Net<L, V>
    requires p in net.party && !Waits(net, p)
  {
    var me := net.party[p];
    var rest := me.(code := me.code[1..]);
    match me.code[0]
    case Send(to, kind, what) =>
      Net(net.party[p := rest], net.pipe[(p, to) := Pipe(net, p, to) + [Msg(kind, what(me.st))]], net.table)
    case Recv(from, kind, store) =>
      var q := Pipe(net, from, p);
      if q[0].kind == kind
      then Net(net.party[p := rest.(st := store(me.st, q[0].val))], net.pipe[(from, p) := q[1..]], net.table)
      else net.(party := net.party[p := Party([], me.st, false)])
    case Post(cell, what) =>
      Net(net.party[p := rest], net.pipe, net.table[cell := what(me.st)])
    case Poll(cell, store) =>
      net.(party := net.party[p := rest.(st := store(me.st, net.table[cell]))])
    case Let(compute) =>
      net.(party := net.party[p := rest.(st := compute(me.st))])
  }

  /** The state before the first step: parties 1..n with their code, nothing sent or posted. */
  function Start<L, V>(n: nat, code: nat -> seq<Instr<L, V>>, init: nat -> L): Net<L, V> {
    Net(map p: nat | 1 <= p <= n :: Party(code(p), init(p), true), map[], map[])
  }

  // ---- plans: what each party is meant to do, with a rank that orders sends before receives ----

  datatype Event<+V> =
    | Sent(to: nat, msg: Msg<V>)
    | Got(from: nat, msg: Msg<V>, at: nat)
    | Posted(cell: Cell, val: V)
    | Polled(cell: Cell, val: V, at: nat)
    | Computed
  datatype Ranked<+V> = Ranked(rank: nat, ev: Event<V>)

  predicate Fits<L, V(==)>(st: L, i: Instr<L, V>, ev: Event<V>) {
    match i
    case Send(to, kind, what) => ev == Sent(to, Msg(kind, what(st)))
    case Recv(from, kind, _) => ev.Got? && ev.from == from && ev.msg.kind == kind
    case Post(cell, what) => ev == Posted(cell, what(st))
    case Poll(cell, _) => ev.Polled? && ev.cell == cell
    case Let(_) => ev.Computed?
  }

  function Effect<L, V(==)>(st: L, i: Instr<L, V>, ev: Event<V>): L
    requires Fits(st, i, ev)
  {
    match i
    case Send(_, _, _) => st
    case Recv(_, _, store) => store(st, ev.msg.val)
    case Post(_, _) => st
    case Poll(_, store) => store(st, ev.val)
    case Let(compute) => compute(st)
  }

  /** Run alone, and handed what the plan says it receives, the code does what the plan says. */
  predicate Conforms<L, V(==)>(st: L, code: seq<Instr<L, V>>, plan: seq<Ranked<V>>)
    decreases |code|
  {
    |code| == |plan| &&
    (|code| != 0 ==>
      Fits(st, code[0], plan[0].ev) && Conforms(Effect(st, code[0], plan[0].ev), code[1..], plan[1..]))
  }

  /** The state the code ends in when it is handed what the plan says. */
  function Outcome<L, V(==)>(st: L, code: seq<Instr<L, V>>, plan: seq<Ranked<V>>): L
    decreases |code|
  {
    if |code| == 0 || |plan| == 0 || !Fits(st, code[0], plan[0].ev) then st
    else Outcome(Effect(st, code[0], plan[0].ev), code[1..], plan[1..])
  }

  /** One item of a plan for n parties: peers exist, what is received was sent at a lower rank, and
      the table holds one value per entry. */
  predicate ItemOk<V(==)>(n: nat, entry: Cell -> V, x: Ranked<V>) {
    match x.ev
    case Sent(to, _) => 1 <= to <= n
    case Got(from, _, at) => 1 <= from <= n && at < x.rank
    case Posted(cell, val) => val == entry(cell)
    case Polled(cell, val, at) => val == entry(cell) && at < x.rank
    case Computed => true
  }

  ghost predicate RankedFrom<V>(rank: nat, plan: seq<Ranked<V>>) {
    forall x | x in plan :: rank <= x.rank
  }

  /** Every item is in order and the ranks never fall. */
  ghost predicate Tidy<V>(n: nat, entry: Cell -> V, plan: seq<Ranked<V>>)
    decreases |plan|
  {
    |plan| == 0 || (ItemOk(n, entry, plan[0]) && RankedFrom(plan[0].rank, plan[1..]) && Tidy(n, entry, plan[1..]))
  }

  type Stream<+V> = seq<(Msg<V>, nat)>

  /** What the plan sends to b, with the rank of each send. */
  function SendsTo<V>(plan: seq<Ranked<V>>, b: nat): Stream<V> {
    if |plan| == 0 then []
    else if plan[0].ev.Sent? && plan[0].ev.to == b then [(plan[0].ev.msg, plan[0].rank)] + SendsTo(plan[1..], b)
    else SendsTo(plan[1..], b)
  }

  /** What the plan receives from a, with the rank at which each was sent. */
  function RecvsFrom<V>(plan: seq<Ranked<V>>, a: nat): Stream<V> {
    if |plan| == 0 then []
    else if plan[0].ev.Got? && plan[0].ev.from == a then [(plan[0].ev.msg, plan[0].ev.at)] + RecvsFrom(plan[1..], a)
    else RecvsFrom(plan[1..], a)
  }

  /** The receives still to come are served, in order, by what is in the pipe and then by the sends still to come. */
  ghost predicate Feeds<V>(pipe: seq<Msg<V>>, sends: Stream<V>, recvs: Stream<V>)
    decreases |recvs|
  {
    if |recvs| == 0 then true
    else if |pipe| != 0 then pipe[0] == recvs[0].0 && Feeds(pipe[1..], sends, recvs[1..])
    else |sends| != 0 && sends[0] == recvs[0] && Feeds([], sends[1..], recvs[1..])
  }

  lemma {:induction false} FeedsAfterSend<V>(pipe: seq<Msg<V>>, sends: Stream<V>, recvs: Stream<V>)
    requires |sends| != 0 && Feeds(pipe, sends, recvs)
    ensures Feeds(pipe + [sends[0].0], sends[1..], recvs)
    decreases |recvs|
  {
    if |recvs| != 0 {
      if |pipe| != 0 {
        FeedsAfterSend(pipe[1..], sends, recvs[1..]);
        assert (pipe + [sends[0].0])[1..] == pipe[1..] + [sends[0].0];
      } else {
        assert (pipe + [sends[0].0])[1..] == [];
      }
    }
  }

  lemma {:induction false} PrefixFeeds<V>(sends: Stream<V>, recvs: Stream<V>)
    requires recvs <= sends
    ensures Feeds([], sends, recvs)
    decreases |recvs|
  {
    if |recvs| != 0 { PrefixFeeds(sends[1..], recvs[1..]); }
  }

  // ---- the plan decides every run ----

  /** The party's code and state still fit the rest of its plan. */
  ghost predicate PartyFits<L, V>(n: nat, entry: Cell -> V, me: Party<L, V>, left: seq<Ranked<V>>) {
    me.ok && Conforms(me.st, me.code, left) && Tidy(n, entry, left)
  }

  ghost predicate Posts<V>(plan: seq<Ranked<V>>, cell: Cell, at: nat) {
    exists x :: x in plan && x.ev.Posted? && x.ev.cell == cell && x.rank <= at
  }

  ghost predicate SomePosts<V>(n: nat, plan: nat -> seq<Ranked<V>>, cell: Cell, at: nat) {
    exists a: nat :: 1 <= a <= n && Posts(plan(a), cell, at)
  }

  /** Every poll still to come finds its entry, or some party will post it at a low enough rank. */
  ghost predicate PollsServed<V>(n: nat, table: map<Cell, V>, plan: nat -> seq<Ranked<V>>) {
    forall p: nat, x | 1 <= p <= n && x in plan(p) && x.ev.Polled? ::
      x.ev.cell in table || SomePosts(n, plan, x.ev.cell, x.ev.at)
  }

  ghost predicate PipesFed<L, V>(n: nat, net: Net<L, V>, left: nat -> seq<Ranked<V>>) {
    forall a: nat, b: nat | 1 <= a <= n && 1 <= b <= n ::
      Feeds(Pipe(net, a, b), SendsTo(left(a), b), RecvsFrom(left(b), a))
  }

  /** A plan for parties 1..n that fits their code. */
  ghost predicate GoodPlan<L, V>(n: nat, code: nat -> seq<Instr<L, V>>, init: nat -> L, plan: nat -> seq<Ranked<V>>,
      entry: Cell -> V) {
    && (forall p: nat | 1 <= p <= n :: PartyFits(n, entry, Party(code(p), init(p), true), plan(p)))
    && (forall a: nat, b: nat | 1 <= a <= n && 1 <= b <= n :: RecvsFrom(plan(b), a) <= SendsTo(plan(a), b))
    && PollsServed(n, map[], plan)
  }

  ghost predicate Parties<L, V>(n: nat, net: Net<L, V>) {
    forall p: nat :: p in net.party <==> 1 <= p <= n
  }

  /** The invariant of every run: what is left of each party's plan (`left`) still fits the state. */
  ghost predicate OnPlan<L, V>(n: nat, net: Net<L, V>, left: nat -> seq<Ranked<V>>, entry: Cell -> V) {
    && Parties(n, net)
    && (forall p: nat | 1 <= p <= n :: PartyFits(n, entry, net.party[p], left(p)))
    && PipesFed(n, net, left)
    && (forall cell | cell in net.table :: net.table[cell] == entry(cell))
    && PollsServed(n, net.table, left)
  }

  ghost function Drop<V>(left: nat -> seq<Ranked<V>>, p: nat): nat -> seq<Ranked<V>>
    requires |left(p)| != 0
  {
    (q: nat) => if q == p then left(p)[1..] else left(q)
  }

  lemma {:induction false} StartOnPlan<L, V>(n: nat, code: nat -> seq<Instr<L, V>>, init: nat -> L,
      plan: nat -> seq<Ranked<V>>, entry: Cell -> V)
    requires GoodPlan(n, code, init, plan, entry)
    ensures OnPlan(n, Start(n, code, init), plan, entry)
  {
    forall a: nat, b: nat | 1 <= a <= n && 1 <= b <= n
      ensures Feeds<V>([], SendsTo(plan(a), b), RecvsFrom(plan(b), a))
    {
      PrefixFeeds(SendsTo(plan(a), b), RecvsFrom(plan(b), a));
    }
  }

  /** The plan says what the next statement of p does, and for a receive the front of the pipe is
      the very message the plan expects. */
  lemma {:induction false} NextItem<L, V>(n: nat, net: Net<L, V>, left: nat -> seq<Ranked<V>>, entry: Cell -> V, p: nat)
    requires OnPlan(n, net, left, entry) && 1 <= p <= n && !Waits(net, p)
    ensures |left(p)| != 0 && Fits(net.party[p].st, net.party[p].code[0], left(p)[0].ev) && ItemOk(n, entry, left(p)[0])
    ensures var i, ev := net.party[p].code[0], left(p)[0].ev;
            && (i.Recv? ==> Pipe(net, i.from, p)[0] == ev.msg)
            && (i.Poll? ==> net.table[i.cell] == ev.val)
  {
    assert PartyFits(n, entry, net.party[p], left(p));
    var i, ev := net.party[p].code[0], left(p)[0].ev;
    if i.Recv? {
      assert Feeds(Pipe(net, i.from, p), SendsTo(left(i.from), p), RecvsFrom(left(p), i.from));
      assert RecvsFrom(left(p), i.from)[0] == (ev.msg, ev.at);
    }
  }

  lemma {:induction false} StepOthers<L, V>(net: Net<L, V>, p: nat)
    requires p in net.party && !Waits(net, p)
    ensures After(net, p).party.Keys == net.party.Keys
    ensures forall q | q in net.party && q != p :: After(net, p).party[q] == net.party[q]
  {}

  lemma {:induction false} StepParty<L, V>(n: nat, net: Net<L, V>, left: nat -> seq<Ranked<V>>, entry: Cell -> V,
      p: nat)
    requires OnPlan(n, net, left, entry) && 1 <= p <= n && !Waits(net, p)
    ensures |left(p)| != 0 && Parties(n, After(net, p))
    ensures forall q: nat | 1 <= q <= n :: PartyFits(n, entry, After(net, p).party[q], Drop(left, p)(q))
    ensures |After(net, p).party[p].code| + 1 == |net.party[p].code|
    ensures Outcome(net.party[p].st, net.party[p].code, left(p))
            == Outcome(After(net, p).party[p].st, After(net, p).party[p].code, left(p)[1..])
  {
    hide PipesFed, PollsServed, RankedFrom;
    NextItem(n, net, left, entry, p);
    assert PartyFits(n, entry, net.party[p], left(p));
    var me := net.party[p];
    assert After(net, p).party[p] == Party(me.code[1..], Effect(me.st, me.code[0], left(p)[0].ev), true);
    forall q: nat | 1 <= q <= n
      ensures PartyFits(n, entry, After(net, p).party[q], Drop(left, p)(q))
    {
      if q != p { assert PartyFits(n, entry, net.party[q], left(q)); }
    }
  }

  lemma {:induction false} StepPipes<L, V>(n: nat, net: Net<L, V>, left: nat -> seq<Ranked<V>>, entry: Cell -> V,
      p: nat)
    requires OnPlan(n, net, left, entry) && 1 <= p <= n && !Waits(net, p)
    ensures |left(p)| != 0 && PipesFed(n, After(net, p), Drop(left, p))
  {
    hide PollsServed, Tidy, Conforms;
    NextItem(n, net, left, entry, p);
    forall a: nat, b: nat | 1 <= a <= n && 1 <= b <= n
      ensures Feeds(Pipe(After(net, p), a, b), SendsTo(Drop(left, p)(a), b), RecvsFrom(Drop(left, p)(b), a))
    {
      assert Feeds(Pipe(net, a, b), SendsTo(left(a), b), RecvsFrom(left(b), a));
      var i := net.party[p].code[0];
      if i.Send? && a == p && b == i.to {
        FeedsAfterSend(Pipe(net, a, b), SendsTo(left(a), b), RecvsFrom(left(b), a));
        assert SendsTo(left(a), b)[1..] == SendsTo(left(a)[1..], b);
      } else if i.Recv? && b == p && a == i.from {
        assert RecvsFrom(left(b), a)[1..] == RecvsFrom(left(b)[1..], a);
      }
    }
  }

  lemma {:induction false} StepPolls<L, V>(n: nat, net: Net<L, V>, left: nat -> seq<Ranked<V>>, entry: Cell -> V,
      p: nat)
    requires OnPlan(n, net, left, entry) && 1 <= p <= n && !Waits(net, p)
    ensures |left(p)| != 0 && PollsServed(n, After(net, p).table, Drop(left, p))
    ensures forall cell | cell in After(net, p).table :: After(net, p).table[cell] == entry(cell)
  {
    hide PipesFed, Tidy, Conforms;
    NextItem(n, net, left, entry, p);
    var table, left' := After(net, p).table, Drop(left, p);
    forall q: nat, x | 1 <= q <= n && x in left'(q) && x.ev.Polled? && x.ev.cell !in table
      ensures SomePosts(n, left', x.ev.cell, x.ev.at)
    {
      assert x in left(q);
      var a: nat :| 1 <= a <= n && Posts(left(a), x.ev.cell, x.ev.at);
      var y :| y in left(a) && y.ev.Posted? && y.ev.cell == x.ev.cell && y.rank <= x.ev.at;
      assert a == p ==> y != left(p)[0];
      assert y in left'(a);
      assert Posts(left'(a), x.ev.cell, x.ev.at);
    }
  }

  /** One step keeps the run on plan, whichever party takes it. */
  lemma {:induction false} StepOnPlan<L, V>(n: nat, net: Net<L, V>, left: nat -> seq<Ranked<V>>, entry: Cell -> V,
      p: nat)
    requires OnPlan(n, net, left, entry) && 1 <= p <= n && !Waits(net, p)
    ensures |left(p)| != 0 && OnPlan(n, After(net, p), Drop(left, p), entry)
  {
    StepParty(n, net, left, entry, p);
    StepPipes(n, net, left, entry, p);
    StepPolls(n, net, left, entry, p);
  }

  // ---- progress ----

  /** Statements left to run at parties 1..n. */
  ghost function Work<L, V>(n: nat, net: Net<L, V>): nat
    requires Parties(n, net)
  {
    CodeLeft(net, n, n)
  }

  ghost function CodeLeft<L, V>(net: Net<L, V>, n: nat, m: nat): nat
    requires m <= n && Parties(n, net)
  {
    if m == 0 then 0 else CodeLeft(net, n, m - 1) + |net.party[m].code|
  }

  lemma {:induction false} OneLess<L, V>(net: Net<L, V>, next: Net<L, V>, n: nat, m: nat, p: nat)
    requires m <= n && Parties(n, net) && Parties(n, next) && 1 <= p <= n
    requires |net.party[p].code| == |next.party[p].code| + 1
    requires forall q: nat | 1 <= q <= n && q != p :: next.party[q].code == net.party[q].code
    ensures CodeLeft(net, n, m) == CodeLeft(next, n, m) + if p <= m then 1 else 0
  {
    if m != 0 { OneLess(net, next, n, m - 1, p); }
  }

  lemma {:induction false} NoCodeLeft<L, V>(net: Net<L, V>, n: nat, m: nat)
    requires m <= n && Parties(n, net)
    ensures CodeLeft(net, n, m) == 0 <==> forall q: nat | 1 <= q <= m :: |net.party[q].code| == 0
  {
    if m != 0 { NoCodeLeft(net, n, m - 1); }
  }

  /** Among the first m parties with something left to do, one whose next rank is lowest. */
  lemma {:induction false} LowestNext<V>(left: nat -> seq<Ranked<V>>, m: nat) returns (p: nat)
    ensures p == 0 ==> forall q: nat | 1 <= q <= m :: |left(q)| == 0
    ensures p != 0 ==> 1 <= p <= m && |left(p)| != 0
                       && forall q: nat | 1 <= q <= m && |left(q)| != 0 :: left(p)[0].rank <= left(q)[0].rank
  {
    p := 0;
    if m != 0 {
      p := LowestNext(left, m - 1);
      if |left(m)| != 0 && (p == 0 || left(m)[0].rank < left(p)[0].rank) { p := m; }
    }
  }

  lemma {:induction false} FirstSendRank<V>(n: nat, entry: Cell -> V, plan: seq<Ranked<V>>, b: nat)
    requires Tidy(n, entry, plan) && |SendsTo(plan, b)| != 0
    ensures |plan| != 0 && plan[0].rank <= SendsTo(plan, b)[0].1
    decreases |plan|
  {
    if !(plan[0].ev.Sent? && plan[0].ev.to == b) {
      FirstSendRank(n, entry, plan[1..], b);
      assert plan[1..][0] in plan[1..];
    }
  }

  /** No reachable state is stuck: the party whose next statement has the lowest rank can take it. */
  lemma {:induction false} SomeoneMoves<L, V>(n: nat, net: Net<L, V>, left: nat -> seq<Ranked<V>>, entry: Cell -> V)
      returns (p: nat)
    requires OnPlan(n, net, left, entry)
    ensures p == 0 ==> forall q: nat | 1 <= q <= n :: |net.party[q].code| == 0
    ensures p != 0 ==> 1 <= p <= n && !Waits(net, p)
  {
    p := LowestNext(left, n);
    forall q: nat | 1 <= q <= n ensures |net.party[q].code| == |left(q)| {
      assert PartyFits(n, entry, net.party[q], left(q));
    }
    if p != 0 {
      assert PartyFits(n, entry, net.party[p], left(p));
      var i, next := net.party[p].code[0], left(p)[0];
      if i.Recv? && |Pipe(net, i.from, p)| == 0 {
        assert Feeds(Pipe(net, i.from, p), SendsTo(left(i.from), p), RecvsFrom(left(p), i.from));
        assert RecvsFrom(left(p), i.from)[0] == (next.ev.msg, next.ev.at);
        assert PartyFits(n, entry, net.party[i.from], left(i.from));
        FirstSendRank(n, entry, left(i.from), p);
        assert false;
      }
    }
  }

  // ---- the theorem about whole runs ----

  /** The parties named in `who` can take a step each, in that order. */
  predicate CanRun<L, V>(net: Net<L, V>, who: seq<nat>)
    decreases |who|
  {
    |who| == 0 || (who[0] in net.party && !Waits(net, who[0]) && CanRun(After(net, who[0]), who[1..]))
  }

  /** The state after those steps. */
  function Run<L, V>(net: Net<L, V>, who: seq<nat>): Net<L, V>
    requires CanRun(net, who)
    decreases |who|
  {
    if |who| == 0 then net else Run(After(net, who[0]), who[1..])
  }

  ghost predicate Planned<V>(plan: seq<Ranked<V>>, b: nat, m: Msg<V>) {
    exists x :: x in plan && x.ev == Sent(b, m)
  }

  /** Party p of the reachable state still ends where the plan ends, with items of the plan left. */
  ghost predicate OnCourse<L, V>(code: seq<Instr<L, V>>, init: L, plan: seq<Ranked<V>>, me: Party<L, V>,
      left: seq<Ranked<V>>) {
    Outcome(me.st, me.code, left) == Outcome(init, code, plan) && forall x | x in left :: x in plan
  }

  ghost predicate AllOnCourse<L, V>(n: nat, code: nat -> seq<Instr<L, V>>, init: nat -> L, plan: nat -> seq<Ranked<V>>,
      net: Net<L, V>, left: nat -> seq<Ranked<V>>)
    requires Parties(n, net)
  {
    forall p: nat | 1 <= p <= n :: OnCourse(code(p), init(p), plan(p), net.party[p], left(p))
  }

  ghost predicate TrafficPlanned<L, V>(n: nat, plan: nat -> seq<Ranked<V>>, net: Net<L, V>) {
    forall a: nat, b: nat, m | 1 <= a <= n && m in Pipe(net, a, b) :: Planned(plan(a), b, m)
  }

  lemma {:induction false} StepOnCourse<L, V>(n: nat, code: nat -> seq<Instr<L, V>>, init: nat -> L,
      plan: nat -> seq<Ranked<V>>, entry: Cell -> V, net: Net<L, V>, left: nat -> seq<Ranked<V>>, p: nat)
    requires OnPlan(n, net, left, entry) && AllOnCourse(n, code, init, plan, net, left)
    requires 1 <= p <= n && !Waits(net, p)
    ensures |left(p)| != 0 && Parties(n, After(net, p)) && AllOnCourse(n, code, init, plan, After(net, p),
             Drop(left, p))
    ensures Work(n, net) == Work(n, After(net, p)) + 1
  {
    hide PipesFed, PollsServed, PartyFits, Waits, After, Outcome;
    StepOthers(net, p);
    StepParty(n, net, left, entry, p);
    assert OnCourse(code(p), init(p), plan(p), net.party[p], left(p));
    forall q: nat | 1 <= q <= n
      ensures OnCourse(code(q), init(q), plan(q), After(net, p).party[q], Drop(left, p)(q))
    {
      assert OnCourse(code(q), init(q), plan(q), net.party[q], left(q));
    }
    OneLess(net, After(net, p), n, n, p);
  }

  lemma {:induction false} StepTraffic<L, V>(n: nat, plan: nat -> seq<Ranked<V>>, entry: Cell -> V, net: Net<L, V>,
      left: nat -> seq<Ranked<V>>, p: nat)
    requires OnPlan(n, net, left, entry) && TrafficPlanned(n, plan, net)
    requires 1 <= p <= n && !Waits(net, p) && forall x | x in left(p) :: x in plan(p)
    ensures TrafficPlanned(n, plan, After(net, p))
  {
    NextItem(n, net, left, entry, p);
    assert left(p)[0] in left(p);
    forall a: nat, b: nat, m | 1 <= a <= n && m in Pipe(After(net, p), a, b)
      ensures Planned(plan(a), b, m)
    {
      if m !in Pipe(net, a, b) { assert left(p)[0].ev == Sent(b, m) && a == p; }
    }
  }

  /** The invariant of every run, with the number of steps taken. */
  ghost predicate Holds<L, V>(n: nat, code: nat -> seq<Instr<L, V>>, init: nat -> L, plan: nat -> seq<Ranked<V>>,
      entry: Cell -> V, net: Net<L, V>, left: nat -> seq<Ranked<V>>, k: nat) {
    && OnPlan(n, net, left, entry) && AllOnCourse(n, code, init, plan, net, left) && TrafficPlanned(n, plan, net)
    && Parties(n, Start(n, code, init)) && k + Work(n, net) == Work(n, Start(n, code, init))
  }

  lemma {:induction false} StartHolds<L, V>(n: nat, code: nat -> seq<Instr<L, V>>, init: nat -> L,
      plan: nat -> seq<Ranked<V>>, entry: Cell -> V)
    requires GoodPlan(n, code, init, plan, entry)
    ensures Holds(n, code, init, plan, entry, Start(n, code, init), plan, 0)
  {
    StartOnPlan(n, code, init, plan, entry);
  }

  lemma {:induction false} StepHolds<L, V>(n: nat, code: nat -> seq<Instr<L, V>>, init: nat -> L,
      plan: nat -> seq<Ranked<V>>, entry: Cell -> V, net: Net<L, V>, left: nat -> seq<Ranked<V>>, k: nat, p: nat)
    requires Holds(n, code, init, plan, entry, net, left, k)
    requires p in net.party && !Waits(net, p)
    ensures |left(p)| != 0 && Holds(n, code, init, plan, entry, After(net, p), Drop(left, p), k + 1)
  {
    StepOnPlan(n, net, left, entry, p);
    StepOnCourse(n, code, init, plan, entry, net, left, p);
    assert OnCourse(code(p), init(p), plan(p), net.party[p], left(p));
    StepTraffic(n, plan, entry, net, left, p);
  }

  lemma {:induction false} RunHolds<L, V>(n: nat, code: nat -> seq<Instr<L, V>>, init: nat -> L,
      plan: nat -> seq<Ranked<V>>, entry: Cell -> V, net: Net<L, V>, left: nat -> seq<Ranked<V>>, k: nat, who: seq<nat>)
                                              returns (end: nat -> seq<Ranked<V>>)
    requires Holds(n, code, init, plan, entry, net, left, k) && CanRun(net, who)
    ensures Holds(n, code, init, plan, entry, Run(net, who), end, k + |who|)
    decreases |who|
  {
    end := left;
    if |who| != 0 {
      StepHolds(n, code, init, plan, entry, net, left, k, who[0]);
      end := RunHolds(n, code, init, plan, entry, After(net, who[0]), Drop(left, who[0]), k + 1, who[1..]);
    }
  }

  /** Every message in a pipe, and every table entry, is the one the plan names. */
  ghost predicate CarriesPlan<L, V>(n: nat, plan: nat -> seq<Ranked<V>>, entry: Cell -> V, net: Net<L, V>) {
    TrafficPlanned(n, plan, net) && forall cell | cell in net.table :: net.table[cell] == entry(cell)
  }

  /** Whoever is about to receive from a pipe that is not empty finds the kind it expects in front. */
  ghost predicate KindsMatch<L, V>(n: nat, net: Net<L, V>)
    requires Parties(n, net)
  {
    forall p: nat | 1 <= p <= n && !Waits(net, p) && net.party[p].code[0].Recv? ::
      Pipe(net, net.party[p].code[0].from, p)[0].kind == net.party[p].code[0].kind
  }

  ghost predicate Finished<L, V>(n: nat, net: Net<L, V>)
    requires Parties(n, net)
  {
    forall p: nat | 1 <= p <= n :: |net.party[p].code| == 0
  }

  /** After some steps from `start`: nothing has gone wrong, the next receives match, somebody can
      move unless all are finished, and the steps so far and the statements left add up, so that all
      are finished after exactly as many steps as there were statements. */
  ghost predicate GoesWell<L, V>(n: nat, start: Net<L, V>, net: Net<L, V>, steps: nat) {
    && Parties(n, start) && Parties(n, net)
    && (forall p: nat | 1 <= p <= n :: net.party[p].ok)
    && KindsMatch(n, net)
    && (Finished(n, net) || exists p: nat :: 1 <= p <= n && !Waits(net, p))
    && steps + Work(n, net) == Work(n, start)
    && (Finished(n, net) <==> steps == Work(n, start))
  }

  /** Every state any interleaving can reach goes well, its pipes and table carry what the plan
      names, and once all are finished every party is where the plan ends. */
  lemma {:induction false} EveryRun<L, V>(n: nat, code: nat -> seq<Instr<L, V>>, init: nat -> L,
      plan: nat -> seq<Ranked<V>>, entry: Cell -> V, who: seq<nat>)
    requires GoodPlan(n, code, init, plan, entry) && CanRun(Start(n, code, init), who)
    ensures var net := Run(Start(n, code, init), who);
            && GoesWell(n, Start(n, code, init), net, |who|) && CarriesPlan(n, plan, entry, net)
            && (Finished(n, net) ==> forall p: nat | 1 <= p <= n :: net.party[p].st == Outcome(init(p), code(p),
                plan(p)))
  {
    StartHolds(n, code, init, plan, entry);
    var left := RunHolds(n, code, init, plan, entry, Start(n, code, init), plan, 0, who);
    HoldsSays(n, code, init, plan, entry, Run(Start(n, code, init), who), left, |who|);
  }

  /** A party that has no code left is where its plan ends, whatever the others still have to do. */
  lemma {:induction false} EveryParty<L, V>(n: nat, code: nat -> seq<Instr<L, V>>, init: nat -> L,
      plan: nat -> seq<Ranked<V>>, entry: Cell -> V, who: seq<nat>)
    requires GoodPlan(n, code, init, plan, entry) && CanRun(Start(n, code, init), who)
    ensures var net := Run(Start(n, code, init), who);
            Parties(n, net) && forall p: nat | 1 <= p <= n && |net.party[p].code| == 0 ::
              net.party[p].st == Outcome(init(p), code(p), plan(p))
  {
    StartHolds(n, code, init, plan, entry);
    var left := RunHolds(n, code, init, plan, entry, Start(n, code, init), plan, 0, who);
    var net := Run(Start(n, code, init), who);
    forall p: nat | 1 <= p <= n && |net.party[p].code| == 0
      ensures net.party[p].st == Outcome(init(p), code(p), plan(p))
    {
      assert PartyFits(n, entry, net.party[p], left(p));
      assert OnCourse(code(p), init(p), plan(p), net.party[p], left(p));
    }
  }

  lemma {:induction false} HoldsSays<L, V>(n: nat, code: nat -> seq<Instr<L, V>>, init: nat -> L,
      plan: nat -> seq<Ranked<V>>, entry: Cell -> V, net: Net<L, V>, left: nat -> seq<Ranked<V>>, k: nat)
    requires Holds(n, code, init, plan, entry, net, left, k)
    ensures Parties(n, net) && (forall p: nat | 1 <= p <= n :: net.party[p].ok)
    ensures KindsMatch(n, net) && CarriesPlan(n, plan, entry, net)
    ensures Finished(n, net) || exists p: nat :: 1 <= p <= n && !Waits(net, p)
    ensures Finished(n, net) <==> Work(n, net) == 0
    ensures Finished(n, net) ==> forall p: nat | 1 <= p <= n :: net.party[p].st == Outcome(init(p), code(p), plan(p))
  {
    var p := SomeoneMoves(n, net, left, entry);
    NoCodeLeft(net, n, n);
    forall p: nat | 1 <= p <= n && !Waits(net, p) && net.party[p].code[0].Recv?
      ensures Pipe(net, net.party[p].code[0].from, p)[0].kind == net.party[p].code[0].kind
    {
      NextItem(n, net, left, entry, p);
    }
    forall p: nat | 1 <= p <= n
      ensures net.party[p].ok
              && (|net.party[p].code| == 0 ==> net.party[p].st == Outcome(init(p), code(p), plan(p)))
    {
      assert PartyFits(n, entry, net.party[p], left(p));
      assert OnCourse(code(p), init(p), plan(p), net.party[p], left(p));
    }
  }
}

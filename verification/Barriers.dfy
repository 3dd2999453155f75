/** Messages are neither lost nor made up on the way, and what follows from that for the start of the
    program: nobody goes on before everybody is there. */
module Barriers {
  import opened KeyAlgebra
  import opened Network
  import opened Phases
  import opened JointKeys
  import opened JointRuns
  import opened Dropouts
  import opened DropoutRuns
  import opened Starvation

  // ---- conservation ----

  /** What a has sent to b so far is what b has taken and what is under way, unless one has gone wrong. */
  ghost predicate Conserved<L, V>(code: nat -> seq<Instr<L, V>>, net: Net<L, V>, a: nat, b: nat) {
    && a in net.party && b in net.party
    && (net.party[a].ok && net.party[b].ok ==>
          SendCount(code(a), b) - SendCount(net.party[a].code, b)
          == RecvCount(code(b), a) - RecvCount(net.party[b].code, a) + |Pipe(net, a, b)|)
  }

  lemma {:induction false} StepConserved<L, V>(code: nat -> seq<Instr<L, V>>, net: Net<L, V>, a: nat, b: nat, p: nat)
    requires Conserved(code, net, a, b) && p in net.party && !Waits(net, p)
    ensures Conserved(code, After(net, p), a, b)
  {
    var next, now := After(net, p), net.party[p].code;
    if next.party[p].ok {
      assert next.party[p].code == now[1..];
      assert p != a ==> next.party[a] == net.party[a];
      assert p != b ==> next.party[b] == net.party[b];
      PipeStep(net, p, a, b);
      hide After, Waits;
    }
  }

  /** A statement lengthens the pipe it sends to and shortens the one it takes from. */
  lemma {:induction false} PipeStep<L, V>(net: Net<L, V>, p: nat, a: nat, b: nat)
    requires p in net.party && !Waits(net, p) && After(net, p).party[p].ok
    ensures var head := net.party[p].code[0];
            |Pipe(After(net, p), a, b)| == |Pipe(net, a, b)|
                + (if p == a && head.Send? && head.to == b then 1 else 0)
                - (if p == b && head.Recv? && head.from == a then 1 else 0)
  {}

  /** What is left of a party's program is an end of it. */
  ghost predicate IsEnd<L, V>(whole: seq<Instr<L, V>>, me: Party<L, V>) {
    me.ok ==> |me.code| <= |whole| && me.code == whole[|whole| - |me.code|..]
  }

  lemma {:induction false} StepEnd<L, V>(whole: seq<Instr<L, V>>, net: Net<L, V>, b: nat, p: nat)
    requires b in net.party && IsEnd(whole, net.party[b]) && p in net.party && !Waits(net, p)
    ensures b in After(net, p).party && IsEnd(whole, After(net, p).party[b])
  {}

  lemma {:induction false} RunConserved<L, V>(code: nat -> seq<Instr<L, V>>, net: Net<L, V>, a: nat, b: nat,
      who: seq<nat>)
    requires Conserved(code, net, a, b) && IsEnd(code(a), net.party[a]) && IsEnd(code(b), net.party[b])
    requires CanRun(net, who)
    ensures var end := Run(net, who);
            Conserved(code, end, a, b) && IsEnd(code(a), end.party[a]) && IsEnd(code(b), end.party[b])
    decreases |who|
  {
    hide IsEnd, Waits, After;
    if |who| != 0 {
      StepConserved(code, net, a, b, who[0]);
      StepEnd(code(a), net, a, who[0]);
      StepEnd(code(b), net, b, who[0]);
      RunConserved(code, After(net, who[0]), a, b, who[1..]);
    }
  }

  lemma {:induction false} StartConserved<L, V>(n: nat, code: nat -> seq<Instr<L, V>>, init: nat -> L, a: nat, b: nat)
    requires 1 <= a <= n && 1 <= b <= n
    ensures var start := Start(n, code, init);
            Conserved(code, start, a, b) && IsEnd(code(a), start.party[a]) && IsEnd(code(b), start.party[b])
  {}

  // ---- whoever is past a receive has been sent to ----

  lemma {:induction false} EndCounts<L, V>(first: seq<Instr<L, V>>, rest: seq<Instr<L, V>>, k: nat, q: nat)
    requires k <= |rest|
    ensures RecvCount((first + rest)[|first| + |rest| - k..], q) + RecvCount(first, q) <= RecvCount(first + rest, q)
    ensures SendCount((first + rest)[|first| + |rest| - k..], q) + SendCount(first, q) <= SendCount(first + rest, q)
  {
    var now, before := rest[|rest| - k..], rest[..|rest| - k];
    assert (first + rest)[|first| + |rest| - k..] == now;
    assert rest == before + now;
    CountsConcat(first, rest, q);
    CountsConcat(before, now, q);
  }

  lemma {:induction false} NotPastCounts<L, V>(first: seq<Instr<L, V>>, rest: seq<Instr<L, V>>, k: nat, q: nat)
    requires |rest| <= k <= |first| + |rest|
    ensures SendCount(first + rest, q) <= SendCount((first + rest)[|first| + |rest| - k..], q) + SendCount(first, q)
  {
    var cut := |first| + |rest| - k;
    assert (first + rest)[cut..] == first[cut..] + rest;
    assert first == first[..cut] + first[cut..];
    CountsConcat(first, rest, q);
    CountsConcat(first[cut..], rest, q);
    CountsConcat(first[..cut], first[cut..], q);
  }

  /** In every reachable state: a party past the first part of its program has been sent at least as many
      messages by q as it receives from q in that part. */
  lemma {:induction false} PastMeansSent<L, V>(n: nat, code: nat -> seq<Instr<L, V>>, init: nat -> L,
      first: seq<Instr<L, V>>, rest: seq<Instr<L, V>>, p: nat, q: nat, who: seq<nat>)
    requires 1 <= p <= n && 1 <= q <= n && code(p) == first + rest && CanRun(Start(n, code, init), who)
    ensures var net := Run(Start(n, code, init), who);
            && p in net.party && q in net.party && IsEnd(code(q), net.party[q])
            && (net.party[p].ok && net.party[q].ok && |net.party[p].code| <= |rest| ==>
                  SendCount(code(q), p) - SendCount(net.party[q].code, p) >= RecvCount(first, q))
  {
    StartConserved(n, code, init, q, p);
    RunConserved(code, Start(n, code, init), q, p, who);
    hide *;
    var net := Run(Start(n, code, init), who);
    var me, other := net.party[p], net.party[q];
    if me.ok && other.ok && |me.code| <= |rest| {
      PastCounts(first, rest, me, q);
      Balance(code, net, q, p);
    }
  }

  lemma {:induction false} PastCounts<L, V>(first: seq<Instr<L, V>>, rest: seq<Instr<L, V>>, me: Party<L, V>, q: nat)
    requires IsEnd(first + rest, me) && me.ok && |me.code| <= |rest|
    ensures RecvCount(me.code, q) + RecvCount(first, q) <= RecvCount(first + rest, q)
  {
    EndCounts(first, rest, |me.code|, q);
    hide RecvCount, SendCount;
  }

  lemma {:induction false} Balance<L, V>(code: nat -> seq<Instr<L, V>>, net: Net<L, V>, a: nat, b: nat)
    requires Conserved(code, net, a, b) && a in net.party && b in net.party && net.party[a].ok && net.party[b].ok
    ensures SendCount(code(a), b) - SendCount(net.party[a].code, b)
            >= RecvCount(code(b), a) - RecvCount(net.party[b].code, a)
  {
    hide SendCount, RecvCount;
  }

  // ---- the start of the program ----

  lemma {:induction false} SyncCounts<T>(d: Demo<T>, p: nat, q: nat)
    requires Sound(d.c) && 1 <= p <= d.c.n && 1 <= q <= d.c.n && p != q
    ensures RecvCount(SyncAll(d)(p), q) == 1 && SendCount(SyncAll(d)(p), q) == 1
  {
    var send: Code<T> := SendAll(d.c.order(p), "synchronize msg", GetText());
    var get: Code<T> := RecvAll(1, d.c.n, {p} + {}, "synchronize msg", Each(Ignore()));
    assert SyncAll(d)(p) == send + get;
    assert Others(d.c.order(p), p, d.c.n);
    RecvAllCounts<Node<T>, Val<T>>(1, d.c.n, {p} + {}, "synchronize msg", Each(Ignore()), q);
    SendAllCounts<Node<T>, Val<T>>(d.c.order(p), "synchronize msg", GetText(), q);
    SendAllOnce<Node<T>, Val<T>>(d.c.order(p), "synchronize msg", GetText(), q);
    CountsConcat(send, get, q);
  }

  lemma {:induction false} ContextCounts<T>(d: Demo<T>, p: nat)
    requires Sound(d.c) && 1 < p <= d.c.n
    ensures RecvCount(ContextCast(d)(p), 1) == 1
  {
    assert ContextCast(d)(p)[1..] == [];
  }

  /** The first two stages, and what follows them. */
  function AfterSync<T(==)>(d: Demo<T>, p: nat): Code<T> {
    ContextCast(d)(p) + (PubGen(d.c)(p) + ShareAll(d)(p)) + Middle(d)(p) + PartialAll(d)(p) + Ending(d)(p)
  }
  function AfterContext<T(==)>(d: Demo<T>, p: nat): Code<T> {
    PubGen(d.c)(p) + ShareAll(d)(p) + Middle(d)(p) + PartialAll(d)(p) + Ending(d)(p)
  }

  lemma {:induction false} ProgramBegins<T>(d: Demo<T>, p: nat)
    ensures Program(d)(p) == SyncAll(d)(p) + AfterSync(d, p)
    ensures Program(d)(p) == SyncAll(d)(p) + ContextCast(d)(p) + AfterContext(d, p)
  {
    hide SyncAll, ContextCast, PubGen, ShareAll, Middle, PartialAll, Ending;
    var a, b, c, e, f, g, h := SyncAll(d)(p), ContextCast(d)(p), PubGen(d.c)(p), ShareAll(d)(p), Middle(d)(p),
        PartialAll(d)(p), Ending(d)(p);
    assert Program(d)(p) == a + b + (c + e) + f + g + h;
    assert a + b + (c + e) + f + g + h == a + (b + (c + e) + f + g + h);
    assert a + b + (c + e) + f + g + h == a + b + (c + e + f + g + h);
  }

  /** A party that is past its synchronization has been synchronized with by everybody else, and so has
      everybody begun; a party that has the context is past node 1's synchronization. Hence nobody takes
      part in generating keys before everybody is there. */
  lemma {:induction false} NobodyGoesAhead<T>(d: Demo<T>, who: seq<nat>, p: nat, q: nat)
    requires Sound(d.c) && 1 <= p <= d.c.n && 1 <= q <= d.c.n && p != q
    requires CanRun(Start(d.c.n, Program(d), AtStart()), who)
    ensures var net := Run(Start(d.c.n, Program(d), AtStart()), who);
            && Parties(d.c.n, net)
            && (net.party[p].ok && net.party[q].ok ==>
                  && (|net.party[p].code| <= |AfterSync(d, p)| ==>
                        SendCount(Program(d)(q), p) - SendCount(net.party[q].code, p) >= 1)
                  && (q == 1 && |net.party[p].code| <= |AfterContext(d, p)| ==>
                        |net.party[1].code| < |AfterSync(d, 1)|))
  {
    hide *;
    SyncCounts(d, p, q);
    SyncCounts(d, q, p);
    ProgramBegins(d, p);
    ProgramBegins(d, q);
    var start := Start(d.c.n, Program(d), AtStart());
    RunParties(d.c.n, Program(d), AtStart(), who);
    var net := Run(start, who);
    PastMeansSent(d.c.n, Program(d), AtStart(), SyncAll(d)(p), AfterSync(d, p), p, q, who);
    if q == 1 && net.party[p].ok && net.party[1].ok && |net.party[p].code| <= |AfterContext(d, p)| {
      ContextCounts(d, p);
      CountsConcat(SyncAll(d)(p), ContextCast(d)(p), 1);
      PastMeansSent(d.c.n, Program(d), AtStart(), SyncAll(d)(p) + ContextCast(d)(p), AfterContext(d, p), p, 1, who);
      PastFirst(SyncAll(d)(1), AfterSync(d, 1), net.party[1], p);
    }
  }

  lemma {:induction false} RunParties<L, V>(n: nat, code: nat -> seq<Instr<L, V>>, init: nat -> L, who: seq<nat>)
    requires CanRun(Start(n, code, init), who)
    ensures Parties(n, Run(Start(n, code, init), who))
  {
    StillParties(n, Start(n, code, init), who);
  }

  lemma {:induction false} StillParties<L, V>(n: nat, net: Net<L, V>, who: seq<nat>)
    requires Parties(n, net) && CanRun(net, who)
    ensures Parties(n, Run(net, who))
    decreases |who|
  {
    if |who| != 0 { StillParties(n, After(net, who[0]), who[1..]); }
  }

  /** A party that has sent p more than the first part sends it is past that part. */
  lemma {:induction false} PastFirst<L, V>(first: seq<Instr<L, V>>, rest: seq<Instr<L, V>>, me: Party<L, V>, p: nat)
    requires IsEnd(first + rest, me) && me.ok
    requires SendCount(first + rest, p) - SendCount(me.code, p) > SendCount(first, p)
    ensures |me.code| < |rest|
  {
    if |me.code| >= |rest| { NotPastCounts(first, rest, |me.code|, p); }
  }
}

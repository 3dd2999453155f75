/** Survivors of the peer-to-peer version that disagree, through their own timeouts, about who has
    dropped out: exactly when all of them get through. */
module Suspicions {
  import opened KeyAlgebra
  import opened Network
  import opened Phases
  import opened Patterns
  import opened JointKeys
  import opened Dropouts
  import opened DropoutRuns
  import opened Starvation
  import Recovery

  /** The run as party p sees it: a survivor goes by its own list of those that did not answer in time. */
  function SeenBy<T>(d: Demo<T>, view: nat -> set<nat>, p: nat): Demo<T> {
    d.(dropped := if p in d.dropped then d.dropped else view(p))
  }

  function Parts<T>(d: Demo<T>, view: nat -> set<nat>): nat -> Code<T> {
    (p: nat) => PartialAll(SeenBy(d, view, p))(p)
  }
  function Endings<T>(d: Demo<T>, view: nat -> set<nat>): nat -> Code<T> {
    (p: nat) => Ending(SeenBy(d, view, p))(p)
  }
  function Before<T(==)>(d: Demo<T>): nat -> Code<T> { Then(Opening(d), Middle(d)) }

  /** The whole program, each survivor by its own list from the partial decryptions on. */
  function Suspecting<T(==)>(d: Demo<T>, view: nat -> set<nat>): nat -> Code<T> {
    Then(Then(Before(d), Parts(d, view)), Endings(d, view))
  }

  /** Who dropped out is on every survivor's list, and no survivor is on its own. */
  ghost predicate Views<T>(d: Demo<T>, view: nat -> set<nat>) {
    && (forall i | i in d.dropped :: 1 <= i <= d.c.n)
    && forall p: nat | 1 <= p <= d.c.n && p !in d.dropped ::
         d.dropped <= view(p) && p !in view(p) && forall i | i in view(p) :: 1 <= i <= d.c.n
  }

  /** How many recoveries a party with this list takes part in: none when there are too many. */
  function Recoveries(n: nat, suspects: set<nat>): nat { if |suspects| < Threshold(n) then |suspects| else 0 }

  /** How many recoveries node 1 makes together with p. */
  function MadeWith<T>(d: Demo<T>, view: nat -> set<nat>, p: nat): nat {
    if 1 in d.dropped || p in view(1) then 0 else Recoveries(d.c.n, view(1))
  }

  /** Every survivor counts as many recoveries as node 1 makes with it, and none if it suspects node 1,
      and node 1 has enough parties left for those it makes. */
  ghost predicate Consistent<T>(d: Demo<T>, view: nat -> set<nat>) {
    && (forall p: nat | 1 < p <= d.c.n && p !in d.dropped ::
          && Recoveries(d.c.n, view(p)) == MadeWith(d, view, p)
          && (1 in view(p) ==> Recoveries(d.c.n, view(p)) == 0))
    && (1 in d.dropped || Recoveries(d.c.n, view(1)) == 0 || d.c.n - |view(1)| >= Threshold(d.c.n))
  }

  // ---- counting sends and receives ----

  lemma {:induction false} PartialCounts<T>(d: Demo<T>, p: nat, q: nat)
    requires Sound(d.c) && 1 <= p <= d.c.n && 1 <= q <= d.c.n && p !in d.dropped
    ensures SendCount(PartialAll(d)(p), q) == if p == q then 0 else 1
    ensures RecvCount(PartialAll(d)(p), q) == if p == q || q in d.dropped then 0 else 1
  {
    var send: Code<T> := SendAll(d.c.order(p), "partialciphertext", GetPartial());
    var get: Code<T> := RecvAll(1, d.c.n, {p} + d.dropped, "partialciphertext", KeepSlot());
    assert PartialAll(d)(p) == send + get;
    hide SendAll, RecvAll;
    SendAllOnce<Node<T>, Val<T>>(d.c.order(p), "partialciphertext", GetPartial(), q);
    SendAllCounts<Node<T>, Val<T>>(d.c.order(p), "partialciphertext", GetPartial(), q);
    RecvAllCounts<Node<T>, Val<T>>(1, d.c.n, {p} + d.dropped, "partialciphertext", KeepSlot(), q);
    CountsConcat(send, get, q);
  }

  lemma {:induction false} PeerCounts<T>(d: Demo<T>, ids: seq<nat>, p: nat, q: nat)
    requires p != 1 && p !in d.dropped
    ensures SendCount(RecoverAll(d, ids)(p), q) == RecvCount(RecoverAll(d, ids)(p), q) == if q == 1 then |ids| else 0
    decreases |ids|
  {
    if |ids| != 0 {
      PeerCounts(d, ids[1..], p, q);
      CountsConcat(RecoverOne(d, ids[0])(p), RecoverAll(d, ids[1..])(p), q);
      var ask: Instr<Node<T>, Val<T>> := Send(1, "secretsharerecovery", SendShare(ids[0]));
      var get: Instr<Node<T>, Val<T>> := Recv(1, "abortspartialciphertext", SetSlot(ids[0]));
      assert RecoverOne(d, ids[0])(p) == [ask, get];
      assert [ask, get][1..] == [get] && [get][1..] == [];
    }
  }

  lemma {:induction false} CollectSkips<L, V>(n: nat, skip: set<nat>, kind: string, store: nat -> (L, V) -> L,
      count: nat, threshold: nat, a: nat)
    requires a in skip && a != 1
    ensures RecvCount(Collect(n, skip, kind, store, count, threshold), a) == 0
    decreases threshold - count
  {
    var live := |LiveIds(1, n, skip)|;
    if count < threshold && live != 0 {
      RecvAllCounts(1, n, skip, kind, store, a);
      CollectSkips(n, skip, kind, store, count + live, threshold, a);
      CountsConcat(RecvAll(1, n, skip, kind, store), Collect(n, skip, kind, store, count + live, threshold), a);
    }
  }

  lemma {:induction false} HubOnce<T>(d: Demo<T>, i: nat, p: nat)
    requires Sound(d.c) && 1 !in d.dropped && 1 < p <= d.c.n
    ensures SendCount(RecoverOne(d, i)(1), p) == if p in d.dropped then 0 else 1
    ensures if p in d.dropped then RecvCount(RecoverOne(d, i)(1), p) == 0 else RecvCount(RecoverOne(d, i)(1), p) >= 1
  {
    var live, skip := LiveIds(1, d.c.n, {1} + d.dropped), {1} + d.dropped;
    var begin: Code<T> := [Let(OwnShare(i))];
    var collect: Code<T> := Collect(d.c.n, skip, "secretsharerecovery", KeepRecovery(), 1, Threshold(d.c.n));
    var compute: Code<T> := [Let(Recover(d, i))];
    var tell: Code<T> := SendAll(live, "abortspartialciphertext", GetSlot(i));
    assert RecoverOne(d, i)(1) == begin + collect + (compute + tell);
    LiveIdsAre(1, d.c.n, skip);
    hide Collect, SendAll, LiveIds;
    SendAllOnce<Node<T>, Val<T>>(live, "abortspartialciphertext", GetSlot(i), p);
    SendAllCounts<Node<T>, Val<T>>(live, "abortspartialciphertext", GetSlot(i), p);
    CollectSendsNothing<Node<T>, Val<T>>(d.c.n, skip, "secretsharerecovery", KeepRecovery(), 1, Threshold(d.c.n), p);
    if p !in d.dropped {
      assert p in live;
      CollectMakesPasses<Node<T>, Val<T>>(d.c.n, skip, "secretsharerecovery", KeepRecovery(), 1, Threshold(d.c.n), p);
      Recovery.OnePassSuffices(|live|, Threshold(d.c.n));
    } else {
      CollectSkips<Node<T>, Val<T>>(d.c.n, skip, "secretsharerecovery", KeepRecovery(), 1, Threshold(d.c.n), p);
    }
    CountsConcat(begin, collect, p);
    CountsConcat(compute, tell, p);
    CountsConcat(begin + collect, compute + tell, p);
    assert begin[1..] == [] && compute[1..] == [];
  }

  lemma {:induction false} HubCounts<T>(d: Demo<T>, ids: seq<nat>, p: nat)
    requires Sound(d.c) && 1 !in d.dropped && 1 < p <= d.c.n
    ensures SendCount(RecoverAll(d, ids)(1), p) == if p in d.dropped then 0 else |ids|
    ensures if p in d.dropped then RecvCount(RecoverAll(d, ids)(1), p) == 0
            else RecvCount(RecoverAll(d, ids)(1), p) >= |ids|
    decreases |ids|
  {
    hide RecoverOne;
    if |ids| != 0 {
      HubOnce(d, ids[0], p);
      HubCounts(d, ids[1..], p);
      CountsConcat(RecoverOne(d, ids[0])(1), RecoverAll(d, ids[1..])(1), p);
    }
  }

  lemma {:induction false} NacksSize(i: nat, n: nat, dropped: set<nat>)
    requires i <= n + 1 && forall j | j in dropped :: i <= j <= n
    ensures |Nacks(i, n, dropped)| == |dropped|
    decreases n + 1 - i
  {
    if i <= n {
      NacksSize(i + 1, n, dropped - {i});
      NacksSame(i + 1, n, dropped, dropped - {i});
    } else {
      assert dropped == {};
    }
  }

  lemma {:induction false} NacksSame(i: nat, n: nat, dropped: set<nat>, dropped': set<nat>)
    requires forall j: nat | i <= j <= n :: j in dropped <==> j in dropped'
    ensures Nacks(i, n, dropped) == Nacks(i, n, dropped')
    decreases n + 1 - i
  {
    if i <= n { NacksSame(i + 1, n, dropped, dropped'); }
  }

  /** The ids whose recovery a party takes part in. */
  function Listed(n: nat, suspects: set<nat>): seq<nat> {
    if |suspects| < Threshold(n) then Nacks(1, n, suspects) else []
  }

  lemma {:induction false} ListedSize(n: nat, suspects: set<nat>)
    requires forall i | i in suspects :: 1 <= i <= n
    ensures |Listed(n, suspects)| == Recoveries(n, suspects)
  {
    NacksSize(1, n, suspects);
  }

  /** Who only fuses, or not even that: the dropped out, and whoever refuses to recover so many. */
  function Refusing<T>(d: Demo<T>, p: nat): Code<T> {
    if p in d.dropped || |d.dropped| >= Threshold(d.c.n) then [] else [Let(FuseOwn(d)(p))]
  }

  lemma {:induction false} EndingIs<T>(d: Demo<T>, p: nat)
    ensures Ending(d)(p) == RecoverAll(d, Listed(d.c.n, d.dropped))(p) + Refusing(d, p)
  {
    hide Nacks, RecoverOne;
    if |d.dropped| >= Threshold(d.c.n) {
      assert RecoverAll(d, [])(p) == [];
      assert Threshold(d.c.n) >= 1;
    }
  }

  lemma {:induction false} RefusingCounts<T>(d: Demo<T>, p: nat, q: nat)
    ensures SendCount(Refusing(d, p), q) == 0 && RecvCount(Refusing(d, p), q) == 0
  {
    if |Refusing(d, p)| != 0 { assert Refusing(d, p)[1..] == []; }
  }

  /** What follows the partial decryptions at a peer. */
  lemma {:induction false} PeerEnding<T>(d: Demo<T>, p: nat, q: nat)
    requires (forall i | i in d.dropped :: 1 <= i <= d.c.n) && p != 1 && p !in d.dropped
    ensures SendCount(Ending(d)(p), q) == RecvCount(Ending(d)(p), q)
            == if q == 1 then Recoveries(d.c.n, d.dropped) else 0
  {
    hide RecoverAll, Ending, Refusing;
    EndingIs(d, p);
    ListedSize(d.c.n, d.dropped);
    PeerCounts(d, Listed(d.c.n, d.dropped), p, q);
    RefusingCounts(d, p, q);
    CountsConcat(RecoverAll(d, Listed(d.c.n, d.dropped))(p), Refusing(d, p), q);
  }

  /** And at node 1. */
  lemma {:induction false} HubEnding<T>(d: Demo<T>, p: nat)
    requires Sound(d.c) && (forall i | i in d.dropped :: 1 <= i <= d.c.n) && 1 !in d.dropped && 1 < p <= d.c.n
    ensures SendCount(Ending(d)(1), p) == if p in d.dropped then 0 else Recoveries(d.c.n, d.dropped)
    ensures if p in d.dropped then RecvCount(Ending(d)(1), p) == 0
            else RecvCount(Ending(d)(1), p) >= Recoveries(d.c.n, d.dropped)
  {
    hide RecoverAll, Ending, Refusing;
    EndingIs(d, 1);
    ListedSize(d.c.n, d.dropped);
    HubCounts(d, Listed(d.c.n, d.dropped), p);
    RefusingCounts(d, 1, p);
    CountsConcat(RecoverAll(d, Listed(d.c.n, d.dropped))(1), Refusing(d, 1), p);
  }

  lemma {:induction false} DroppedEnding<T>(d: Demo<T>, ids: seq<nat>, p: nat)
    requires p in d.dropped
    ensures RecoverAll(d, ids)(p) == []
    decreases |ids|
  {
    if |ids| != 0 { DroppedEnding(d, ids[1..], p); }
  }

  lemma {:induction false} BeforePhase<T>(d: Demo<T>, entry: Cell -> Val<T>)
    requires Sound(d.c)
    ensures Phase(d.c.n, entry, 0, 7 * d.c.n + 23, {}, Before(d), Then(OpeningPlan(d), MiddlePlan(d)), AtStart(),
                  WithPartial(d))
  {
    hide Phase, Opening, OpeningPlan, Middle, MiddlePlan, AtStart, WithShares, WithPartial;
    OpeningPhase(d, entry);
    MiddlePhase(d, entry);
    PhaseThen(d.c.n, entry, 0, 5 * d.c.n + 11, 7 * d.c.n + 23, {}, {}, {}, Opening(d), OpeningPlan(d), AtStart(),
        WithShares(d), Middle(d), MiddlePlan(d), WithPartial(d));
  }

  lemma {:induction false} BeforeCounts<T>(d: Demo<T>, entry: Cell -> Val<T>, a: nat, b: nat)
    requires Sound(d.c) && 1 <= a <= d.c.n && 1 <= b <= d.c.n
    ensures SendCount(Before(d)(a), b) == RecvCount(Before(d)(b), a)
  {
    hide Phase, Before, OpeningPlan, MiddlePlan, AtStart, WithPartial;
    BeforePhase(d, entry);
    PhaseCounts(d.c.n, entry, 0, 7 * d.c.n + 23, {}, Before(d), Then(OpeningPlan(d), MiddlePlan(d)), AtStart(),
        WithPartial(d), a, b);
  }

  /** All that a survivor sends to and receives from another party. */
  lemma {:induction false} SurvivorCounts<T>(d: Demo<T>, view: nat -> set<nat>, p: nat, q: nat)
    requires Sound(d.c) && Views(d, view) && 1 <= p <= d.c.n && 1 <= q <= d.c.n && p !in d.dropped
    ensures SendCount(Suspecting(d, view)(p), q)
            == SendCount(Before(d)(p), q) + (if p == q then 0 else 1) + SendCount(Ending(SeenBy(d, view, p))(p), q)
    ensures RecvCount(Suspecting(d, view)(p), q)
            == RecvCount(Before(d)(p), q) + (if p == q || q in view(p) then 0 else 1)
               + RecvCount(Ending(SeenBy(d, view, p))(p), q)
  {
    hide Before, PartialAll, Ending;
    var before, part, rest := Before(d)(p), Parts(d, view)(p), Endings(d, view)(p);
    PartialCounts(SeenBy(d, view, p), p, q);
    CountsConcat(before, part, q);
    CountsConcat(before + part, rest, q);
    assert Suspecting(d, view)(p) == before + part + rest;
  }

  lemma {:induction false} DroppedStops<T>(d: Demo<T>, view: nat -> set<nat>, p: nat)
    requires p in d.dropped
    ensures Parts(d, view)(p) == [] && Endings(d, view)(p) == []
  {
    hide Nacks, RecoverAll, Ending, Listed;
    var seen := SeenBy(d, view, p);
    var ids := Listed(seen.c.n, seen.dropped);
    EndingIs(seen, p);
    DroppedEnding(seen, ids, p);
    assert RecoverAll(seen, ids)(p) + Refusing(seen, p) == [];
    assert PartialAll(seen)(p) == [];
  }

  // ---- a party that meets another kind of message than it waits for ----

  function KindsTo<L, V>(code: seq<Instr<L, V>>, b: nat): seq<string> {
    if |code| == 0 then []
    else if code[0].Send? && code[0].to == b then [code[0].kind] + KindsTo(code[1..], b)
    else KindsTo(code[1..], b)
  }

  function KindsFrom<L, V>(code: seq<Instr<L, V>>, a: nat): seq<string> {
    if |code| == 0 then []
    else if code[0].Recv? && code[0].from == a then [code[0].kind] + KindsFrom(code[1..], a)
    else KindsFrom(code[1..], a)
  }

  function KindsIn<V>(pipe: seq<Msg<V>>): (r: seq<string>)
    ensures |r| == |pipe| && forall i | 0 <= i < |r| :: r[i] == pipe[i].kind
  {
    seq(|pipe|, i requires 0 <= i < |pipe| => pipe[i].kind)
  }

  /** The kinds of what is under way from a to b and of what a still has to send it. */
  function Coming<L, V>(net: Net<L, V>, a: nat, b: nat): seq<string>
    requires a in net.party
  {
    KindsIn(Pipe(net, a, b)) + KindsTo(net.party[a].code, b)
  }

  /** As long as b has not gone wrong, what it still waits for from a is not what is coming. */
  ghost predicate Misled<L, V>(net: Net<L, V>, a: nat, b: nat) {
    && a in net.party && b in net.party
    && (net.party[b].ok ==> !(KindsFrom(net.party[b].code, a) <= Coming(net, a, b)))
  }

  /** Taking the first of what is coming, which is what was waited for, leaves the rest as unlike as before. */
  lemma {:induction false} NotTail<L, V>(pipe: seq<Msg<V>>, sent: seq<string>, code: seq<Instr<L, V>>, a: nat)
    requires |pipe| != 0 && |code| != 0 && code[0].Recv? && code[0].from == a && pipe[0].kind == code[0].kind
    requires !(KindsFrom(code, a) <= KindsIn(pipe) + sent)
    ensures !(KindsFrom(code[1..], a) <= KindsIn(pipe[1..]) + sent)
  {
    var want, coming := KindsFrom(code, a), KindsIn(pipe) + sent;
    assert KindsIn(pipe) == [pipe[0].kind] + KindsIn(pipe[1..]);
    assert coming == [pipe[0].kind] + (KindsIn(pipe[1..]) + sent) && want == [pipe[0].kind] + KindsFrom(code[1..], a);
    assert want[1..] == KindsFrom(code[1..], a) && coming[1..] == KindsIn(pipe[1..]) + sent;
    assert KindsFrom(code[1..], a) <= KindsIn(pipe[1..]) + sent ==> want <= coming;
  }

  lemma {:induction false} StepOther<L, V>(net: Net<L, V>, a: nat, b: nat, p: nat)
    requires a != b && a in net.party && b in net.party && p in net.party && p != b && !Waits(net, p)
    ensures After(net, p).party[b] == net.party[b] && a in After(net, p).party
    ensures Coming(After(net, p), a, b) <= Coming(net, a, b)
  {
    var next, code, pipe := After(net, p), net.party[p].code, Pipe(net, a, b);
    if p == a && code[0].Send? && code[0].to == b {
      assert KindsIn(Pipe(next, a, b)) == KindsIn(pipe) + [code[0].kind];
      assert Coming(next, a, b) == KindsIn(pipe) + ([code[0].kind] + KindsTo(code[1..], b));
    } else if p == a && next.party[a].code == [] {
      assert Pipe(next, a, b) == pipe;
    } else if p == a {
      assert Pipe(next, a, b) == pipe && next.party[a].code == code[1..];
      assert KindsTo(code, b) == KindsTo(code[1..], b);
    } else {
      assert Pipe(next, a, b) == pipe;
    }
  }

  /** The receiver takes what it waits for: both lists are one shorter. */
  lemma {:induction false} StepTakes<L, V>(net: Net<L, V>, a: nat, b: nat)
    requires a != b && Misled(net, a, b) && !Waits(net, b) && net.party[b].ok
    requires var code := net.party[b].code;
             code[0].Recv? && code[0].from == a && Pipe(net, a, b)[0].kind == code[0].kind
    ensures Misled(After(net, b), a, b)
  {
    var next, code, pipe := After(net, b), net.party[b].code, Pipe(net, a, b);
    assert Pipe(next, a, b) == pipe[1..] && next.party[b].code == code[1..] && next.party[a] == net.party[a];
    NotTail(pipe, KindsTo(net.party[a].code, b), code, a);
  }

  lemma {:induction false} StepReceiver<L, V>(net: Net<L, V>, a: nat, b: nat)
    requires a != b && Misled(net, a, b) && !Waits(net, b)
    ensures Misled(After(net, b), a, b)
  {
    var next, code, pipe := After(net, b), net.party[b].code, Pipe(net, a, b);
    if net.party[b].ok && code[0].Recv? && code[0].from == a && pipe[0].kind == code[0].kind {
      StepTakes(net, a, b);
    } else if net.party[b].ok && next.party[b].ok {
      assert Pipe(next, a, b) == pipe && next.party[a] == net.party[a];
    }
  }

  lemma {:induction false} StepMisled<L, V>(net: Net<L, V>, a: nat, b: nat, p: nat)
    requires a != b && Misled(net, a, b) && p in net.party && !Waits(net, p)
    ensures Misled(After(net, p), a, b)
  {
    if p == b {
      StepReceiver(net, a, b);
    } else {
      StepOther(net, a, b, p);
      hide After, Coming, KindsFrom;
      var now, next, want := Coming(net, a, b), Coming(After(net, p), a, b), KindsFrom(net.party[b].code, a);
      assert want <= next ==> want <= now;
    }
  }

  lemma {:induction false} RunMisled<L, V>(net: Net<L, V>, a: nat, b: nat, who: seq<nat>)
    requires a != b && Misled(net, a, b) && CanRun(net, who)
    ensures Misled(Run(net, who), a, b)
    decreases |who|
  {
    hide Misled;
    if |who| != 0 {
      StepMisled(net, a, b, who[0]);
      RunMisled(After(net, who[0]), a, b, who[1..]);
    }
  }

  lemma {:induction false} KindsToConcat<L, V>(x: seq<Instr<L, V>>, y: seq<Instr<L, V>>, b: nat)
    ensures KindsTo(x + y, b) == KindsTo(x, b) + KindsTo(y, b)
    decreases |x|
  {
    if |x| == 0 {
      assert x + y == y;
    } else {
      KindsToConcat(x[1..], y, b);
      assert (x + y)[1..] == x[1..] + y && (x + y)[0] == x[0];
    }
  }

  lemma {:induction false} KindsFromConcat<L, V>(x: seq<Instr<L, V>>, y: seq<Instr<L, V>>, a: nat)
    ensures KindsFrom(x + y, a) == KindsFrom(x, a) + KindsFrom(y, a)
    decreases |x|
  {
    if |x| == 0 {
      assert x + y == y;
    } else {
      KindsFromConcat(x[1..], y, a);
      assert (x + y)[1..] == x[1..] + y && (x + y)[0] == x[0];
    }
  }

  lemma {:induction false} KindsCount<L, V>(code: seq<Instr<L, V>>, b: nat)
    ensures |KindsTo(code, b)| == SendCount(code, b) && |KindsFrom(code, b)| == RecvCount(code, b)
  {
    if |code| != 0 { KindsCount(code[1..], b); }
  }

  // ---- who does not get through ----

  lemma {:induction false} MisledNever<T>(d: Demo<T>, view: nat -> set<nat>, a: nat, b: nat, who: seq<nat>)
    requires a != b && 1 <= a <= d.c.n && 1 <= b <= d.c.n
    requires !(KindsFrom(Suspecting(d, view)(b), a) <= KindsTo(Suspecting(d, view)(a), b))
    requires CanRun(Start(d.c.n, Suspecting(d, view), AtStart()), who)
    ensures !Through(Run(Start(d.c.n, Suspecting(d, view), AtStart()), who), b)
  {
    hide Suspecting, AtStart, Run, CanRun;
    var start := Start(d.c.n, Suspecting(d, view), AtStart());
    assert KindsIn(Pipe(start, a, b)) == [];
    assert [] + KindsTo(Suspecting(d, view)(a), b) == KindsTo(Suspecting(d, view)(a), b);
    RunMisled(start, a, b, who);
    var net := Run(start, who);
    assert KindsFrom<Node<T>, Val<T>>([], a) == [];
  }

  lemma {:induction false} PartialKinds<T>(d: Demo<T>, p: nat, q: nat)
    requires Sound(d.c) && 1 <= p <= d.c.n && 1 <= q <= d.c.n && p != q && p !in d.dropped
    ensures KindsTo(PartialAll(d)(p), q) == ["partialciphertext"]
    ensures q in d.dropped ==> KindsFrom(PartialAll(d)(p), q) == []
  {
    PartialCounts(d, p, q);
    KindsCount(PartialAll(d)(p), q);
    var send: Code<T> := SendAll(d.c.order(p), "partialciphertext", GetPartial());
    var get: Code<T> := RecvAll(1, d.c.n, {p} + d.dropped, "partialciphertext", KeepSlot());
    assert PartialAll(d)(p) == send + get;
    hide PartialAll, SendAll, RecvAll;
    KindsToConcat(send, get, q);
    RecvAllCounts<Node<T>, Val<T>>(1, d.c.n, {p} + d.dropped, "partialciphertext", KeepSlot(), q);
    KindsCount(get, q);
    KindsOfSends<Node<T>, Val<T>>(d.c.order(p), "partialciphertext", GetPartial(), q);
    assert KindsTo(send, q)[0] in KindsTo(send, q);
  }

  lemma {:induction false} KindsOfSends<L, V>(order: seq<nat>, kind: string, what: L -> V, b: nat)
    ensures forall k | k in KindsTo(SendAll(order, kind, what), b) :: k == kind
    decreases |order|
  {
    if |order| != 0 {
      KindsOfSends(order[1..], kind, what, b);
      assert SendAll(order, kind, what)[1..] == SendAll(order[1..], kind, what);
    }
  }

  lemma {:induction false} PeerKinds<T>(d: Demo<T>, p: nat)
    requires p != 1 && p !in d.dropped && (forall i | i in d.dropped :: 1 <= i <= d.c.n)
             && Recoveries(d.c.n, d.dropped) != 0
    ensures |KindsFrom(Ending(d)(p), 1)| != 0 && KindsFrom(Ending(d)(p), 1)[0] == "abortspartialciphertext"
  {
    var ids := Listed(d.c.n, d.dropped);
    ListedSize(d.c.n, d.dropped);
    EndingIs(d, p);
    var one, more, rest := RecoverOne(d, ids[0])(p), RecoverAll(d, ids[1..])(p), Refusing(d, p);
    assert Ending(d)(p) == one + more + rest;
    KindsFromConcat(one, more, 1);
    KindsFromConcat(one + more, rest, 1);
    hide Ending, RecoverAll, Refusing, Listed;
    var ask: Instr<Node<T>, Val<T>> := Send(1, "secretsharerecovery", SendShare(ids[0]));
    var get: Instr<Node<T>, Val<T>> := Recv(1, "abortspartialciphertext", SetSlot(ids[0]));
    assert one == [ask, get] && [ask, get][1..] == [get] && [get][1..] == [];
    assert KindsFrom(one, 1) == ["abortspartialciphertext"];
  }

  /** A survivor that suspects node 1 and takes part in recoveries finds the partial decryption node 1
      sent after all, where it expects a recovered one. */
  lemma {:induction false} SuspectsOne<T>(d: Demo<T>, view: nat -> set<nat>, entry: Cell -> Val<T>, p: nat,
      who: seq<nat>)
    requires Sound(d.c) && Views(d, view) && 1 !in d.dropped && 1 < p <= d.c.n && p !in d.dropped && 1 in view(p)
    requires Recoveries(d.c.n, view(p)) != 0
    requires CanRun(Start(d.c.n, Suspecting(d, view), AtStart()), who)
    ensures !Through(Run(Start(d.c.n, Suspecting(d, view), AtStart()), who), p)
  {
    hide Before, PartialAll, Ending, AtStart, Run, CanRun;
    var sent, want := KindsTo(Before(d)(1), p), KindsFrom(Before(d)(p), 1);
    var code := Suspecting(d, view);
    BeforeCounts(d, entry, 1, p);
    KindsCount(Before(d)(1), p);
    KindsCount(Before(d)(p), 1);
    PartialKinds(SeenBy(d, view, 1), 1, p);
    PartialKinds(SeenBy(d, view, p), p, 1);
    PeerKinds(SeenBy(d, view, p), p);
    KindsToConcat(Before(d)(1), Parts(d, view)(1), p);
    KindsToConcat(Before(d)(1) + Parts(d, view)(1), Endings(d, view)(1), p);
    KindsFromConcat(Before(d)(p), Parts(d, view)(p), 1);
    KindsFromConcat(Before(d)(p) + Parts(d, view)(p), Endings(d, view)(p), 1);
    assert code(1) == Before(d)(1) + Parts(d, view)(1) + Endings(d, view)(1);
    assert code(p) == Before(d)(p) + Parts(d, view)(p) + Endings(d, view)(p);
    assert KindsTo(code(1), p)[|sent|] == "partialciphertext";
    assert KindsFrom(code(p), 1)[|sent|] == "abortspartialciphertext";
    assert "partialciphertext"[0] != "abortspartialciphertext"[0];
    MisledNever(d, view, 1, p, who);
  }

  /** Two parties that both get through: neither waits for more messages than the other sends. */
  lemma {:induction false} BothCounts<T>(d: Demo<T>, view: nat -> set<nat>, a: nat, b: nat, who: seq<nat>)
    requires 1 <= a <= d.c.n && 1 <= b <= d.c.n && CanRun(Start(d.c.n, Suspecting(d, view), AtStart()), who)
    requires Through(Run(Start(d.c.n, Suspecting(d, view), AtStart()), who), b)
    ensures RecvCount(Suspecting(d, view)(b), a) <= SendCount(Suspecting(d, view)(a), b)
  {
    hide Suspecting, AtStart, Run, CanRun;
    if SendCount(Suspecting(d, view)(a), b) < RecvCount(Suspecting(d, view)(b), a) {
      NeverThrough(d.c.n, Suspecting(d, view), AtStart(), a, b, who);
    }
  }

  ghost predicate SurvivorsThrough<T>(d: Demo<T>, net: Net<Node<T>, Val<T>>) {
    forall p: nat | 1 <= p <= d.c.n && p !in d.dropped :: Through(net, p)
  }

  lemma {:induction false} PeerConsistent<T>(d: Demo<T>, view: nat -> set<nat>, entry: Cell -> Val<T>, p: nat,
      who: seq<nat>)
    requires Sound(d.c) && Views(d, view) && 1 < p <= d.c.n && p !in d.dropped
    requires CanRun(Start(d.c.n, Suspecting(d, view), AtStart()), who)
    requires SurvivorsThrough(d, Run(Start(d.c.n, Suspecting(d, view), AtStart()), who))
    ensures Recoveries(d.c.n, view(p)) == MadeWith(d, view, p) && (1 in view(p) ==> Recoveries(d.c.n, view(p)) == 0)
  {
    hide Before, Parts, Endings, Ending, Suspecting, AtStart, Run, CanRun, Recoveries, Through;
    BeforeCounts(d, entry, 1, p);
    BeforeCounts(d, entry, p, 1);
    SurvivorCounts(d, view, p, 1);
    PeerEnding(SeenBy(d, view, p), p, 1);
    BothCounts(d, view, 1, p, who);
    if 1 in d.dropped {
      DroppedStops(d, view, 1);
      assert Suspecting(d, view)(1) == Before(d)(1) by { OnlyBefore(d, view, 1); }
    } else {
      SurvivorCounts(d, view, 1, p);
      HubEnding(SeenBy(d, view, 1), p);
      BothCounts(d, view, p, 1, who);
      if 1 in view(p) && Recoveries(d.c.n, view(p)) != 0 { SuspectsOne(d, view, entry, p, who); }
    }
  }

  lemma {:induction false} OnlyBefore<T>(d: Demo<T>, view: nat -> set<nat>, p: nat)
    requires Parts(d, view)(p) == [] && Endings(d, view)(p) == []
    ensures Suspecting(d, view)(p) == Before(d)(p)
  {
    assert Before(d)(p) + [] + [] == Before(d)(p);
  }

  /** If everybody takes part in as many recoveries as node 1 makes, it has to have enough parties left. */
  lemma {:induction false} EnoughForOne<T>(d: Demo<T>, view: nat -> set<nat>, entry: Cell -> Val<T>, who: seq<nat>)
    requires Sound(d.c) && Views(d, view) && 1 !in d.dropped && Recoveries(d.c.n, view(1)) != 0
    requires forall p: nat | 1 < p <= d.c.n && p !in d.dropped :: Recoveries(d.c.n, view(p)) == MadeWith(d, view, p)
    requires CanRun(Start(d.c.n, Suspecting(d, view), AtStart()), who)
    requires SurvivorsThrough(d, Run(Start(d.c.n, Suspecting(d, view), AtStart()), who))
    ensures d.c.n - |view(1)| >= Threshold(d.c.n)
  {
    hide Before, Parts, Endings, Ending, Suspecting, AtStart, Run, CanRun, Through, LiveIds;
    var seen := SeenBy(d, view, 1);
    if d.c.n - |view(1)| < Threshold(d.c.n) {
      assert TooFew(seen);
      var a := SomePeer(seen);
      EndingStarves(seen, a);
      BeforeCounts(d, entry, a, 1);
      SurvivorCounts(d, view, 1, a);
      SurvivorCounts(d, view, a, 1);
      BothCounts(d, view, a, 1, who);
      if a != 1 {
        PeerEnding(seen, a, 1);
        PeerEnding(SeenBy(d, view, a), a, 1);
      }
    }
  }

  // ---- and why the others do ----

  lemma {:induction false} PeerSame<T>(d: Demo<T>, d': Demo<T>, ids: seq<nat>, p: nat)
    requires p != 1 && p !in d.dropped && p !in d'.dropped
    ensures RecoverAll(d, ids)(p) == RecoverAll(d', ids)(p)
    decreases |ids|
  {
    if |ids| != 0 { PeerSame(d, d', ids[1..], p); }
  }

  /** A round of the recovery in which each party has its own idea of who is being recovered. */
  function Heads(lists: nat -> seq<nat>): nat -> nat { (p: nat) => if |lists(p)| == 0 then 0 else lists(p)[0] }
  function Tails(lists: nat -> seq<nat>): nat -> seq<nat> {
    (p: nat) => if |lists(p)| == 0 then [] else lists(p)[1..]
  }
  function Round<T>(d: Demo<T>, ids: nat -> nat): nat -> Code<T> { (p: nat) => RecoverOne(d, ids(p))(p) }
  function Rounds<T>(d: Demo<T>, lists: nat -> seq<nat>): nat -> Code<T> { (p: nat) => RecoverAll(d, lists(p))(p) }

  function SendShares<T>(ids: nat -> nat): nat -> Node<T> -> Val<T> { (p: nat) => SendShare(ids(p)) }
  function SetSlots<T>(ids: nat -> nat): nat -> (Node<T>, Val<T>) -> Node<T> { (p: nat) => SetSlot(ids(p)) }
  function SharesSent<T>(ids: nat -> nat, pre: Nodes<T>): nat -> Val<T> { (p: nat) => SendShare(ids(p))(pre(p)) }

  /** What node 1 makes of the shares it is sent. */
  function HubAfter<T>(d: Demo<T>, ids: nat -> nat, pre: Nodes<T>): Node<T> {
    var all := Stored(OwnShare(ids(1))(pre(1)), 1, d.c.n, {1} + d.dropped, SharesSent(ids, pre), KeepRecovery());
    Recover(d, ids(1))(all)
  }
  function RoundAfter<T>(d: Demo<T>, ids: nat -> nat, pre: Nodes<T>): Nodes<T> {
    (p: nat) =>
      if p in d.dropped then pre(p)
      else if p == 1 then HubAfter(d, ids, pre)
      else SetSlot(ids(p))(pre(p), GetSlot(ids(1))(HubAfter(d, ids, pre)))
  }
  function RoundPlan<T>(d: Demo<T>, ids: nat -> nat, lo: nat, pre: Nodes<T>): nat -> Plan<T> {
    (p: nat) => GatherPlan(d.c.n, d.dropped, lo, p, "secretsharerecovery", SharesSent(ids, pre),
        Msg("abortspartialciphertext", Told(d, ids, pre)))
  }

  lemma {:induction false} HubCode<L, V>(n: nat, dead: set<nat>, kind0: string, begin: L -> L, what0: nat -> L -> V,
      what0': nat -> L -> V, store0: nat -> (L, V) -> L, compute: L -> L, kind1: string, what1: L -> V,
      store1: nat -> (L, V) -> L, store1': nat -> (L, V) -> L)
    ensures GatherCode(n, dead, 1, kind0, begin, what0, store0, compute, kind1, what1, store1)
            == GatherCode(n, dead, 1, kind0, begin, what0', store0, compute, kind1, what1, store1')
  {}

  lemma {:induction false} RoundIsGather<T>(d: Demo<T>, ids: nat -> nat, p: nat)
    requires EnoughLeft(d)
    ensures Round(d, ids)(p)
            == GatherCode(d.c.n, d.dropped, p, "secretsharerecovery", OwnShare(ids(1)), SendShares(ids), KeepRecovery(),
            Recover(d, ids(1)), "abortspartialciphertext", GetSlot(ids(1)), SetSlots(ids))
  {
    hide *;
    if p == 1 {
      HubRound(d, ids);
      OneIsGather(d, ids(1), 1);
      HubCode(d.c.n, d.dropped, "secretsharerecovery", OwnShare(ids(1)), Each(SendShare(ids(1))), SendShares(ids),
          KeepRecovery(), Recover(d, ids(1)), "abortspartialciphertext", GetSlot(ids(1)), Each(SetSlot(ids(1))),
          SetSlots(ids));
    } else {
      PeerRound(d, ids, p, OwnShare(ids(1)), Recover(d, ids(1)), GetSlot(ids(1)));
    }
  }

  lemma {:induction false} HubRound<T>(d: Demo<T>, ids: nat -> nat)
    ensures Round(d, ids)(1) == RecoverOne(d, ids(1))(1)
  {}

  lemma {:induction false} PeerRound<T>(d: Demo<T>, ids: nat -> nat, p: nat, begin: Node<T> -> Node<T>,
      compute: Node<T> -> Node<T>, what1: Node<T> -> Val<T>)
    requires p != 1
    ensures Round(d, ids)(p)
            == GatherCode(d.c.n, d.dropped, p, "secretsharerecovery", begin, SendShares(ids), KeepRecovery(), compute,
            "abortspartialciphertext", what1, SetSlots(ids))
  {
    hide SendShare, SetSlot, Collect, RecvAll, SendAll, LiveIds, KeepRecovery, OwnShare, Recover, GetSlot;
    assert SendShares<T>(ids)(p) == SendShare(ids(p)) && SetSlots<T>(ids)(p) == SetSlot(ids(p));
  }

  /** What node 1 tells the others in this round. */
  function Told<T>(d: Demo<T>, ids: nat -> nat, pre: Nodes<T>): Val<T> { GetSlot(ids(1))(HubAfter(d, ids, pre)) }

  lemma {:induction false} RoundStates<T>(d: Demo<T>, ids: nat -> nat, pre: Nodes<T>, p: nat)
    requires 1 !in d.dropped
    ensures p in d.dropped ==> RoundAfter(d, ids, pre)(p) == pre(p)
    ensures 1 < p && p !in d.dropped ==> SharesSent(ids, pre)(p) == SendShares(ids)(p)(pre(p))
                                         && RoundAfter(d, ids, pre)(p) == SetSlots(ids)(p)(pre(p), Told(d, ids, pre))
    ensures RoundAfter(d, ids, pre)(1) == HubAfter(d, ids, pre)
  {
    hide HubAfter, SendShare, SetSlot, GetSlot;
  }

  lemma {:induction false} RoundPhase<T>(d: Demo<T>, entry: Cell -> Val<T>, ids: nat -> nat, lo: nat, pre: Nodes<T>)
    requires EnoughLeft(d)
    ensures Phase(d.c.n, entry, lo, lo + 5, {}, Round(d, ids), RoundPlan(d, ids, lo, pre), pre, RoundAfter(d, ids, pre))
  {
    hide Phase, Round, RoundAfter, SharesSent, SendShares, SetSlots, GatherCode, GatherPlan, HubAfter, GetSlot,
        OwnShare, Recover, KeepRecovery, Stored;
    forall p: nat | 1 <= p <= d.c.n
      ensures Round(d, ids)(p)
              == GatherCode(d.c.n, d.dropped, p, "secretsharerecovery", OwnShare(ids(1)), SendShares(ids),
              KeepRecovery(), Recover(d, ids(1)), "abortspartialciphertext", GetSlot(ids(1)), SetSlots(ids))
    {
      RoundIsGather(d, ids, p);
    }
    RoundStates(d, ids, pre, 1);
    forall p: nat | 1 < p <= d.c.n && p !in d.dropped
      ensures SharesSent(ids, pre)(p) == SendShares(ids)(p)(pre(p))
      ensures RoundAfter(d, ids, pre)(p) == SetSlots(ids)(p)(pre(p), Told(d, ids, pre))
    {
      RoundStates(d, ids, pre, p);
    }
    forall p: nat | p in d.dropped ensures RoundAfter(d, ids, pre)(p) == pre(p) { RoundStates(d, ids, pre, p); }
    HubAfterIs(d, ids, pre);
    GatherPhase(d.c.n, entry, lo, d.dropped, "secretsharerecovery", OwnShare(ids(1)), SendShares(ids), KeepRecovery(),
        Recover(d, ids(1)), "abortspartialciphertext", GetSlot(ids(1)), SetSlots(ids), SharesSent(ids, pre),
        Msg("abortspartialciphertext", Told(d, ids, pre)), pre, RoundAfter(d, ids, pre), Round(d, ids),
        RoundPlan(d, ids, lo, pre));
  }

  lemma {:induction false} HubAfterIs<T>(d: Demo<T>, ids: nat -> nat, pre: Nodes<T>)
    ensures HubAfter(d, ids, pre) == Recover(d, ids(1))(Stored(OwnShare(ids(1))(pre(1)), 1, d.c.n, {1} + d.dropped,
        SharesSent(ids, pre), KeepRecovery()))
  {}

  lemma {:induction false} SamePhase<L, V>(n: nat, entry: Cell -> V, lo: nat, hi: nat, code: nat -> seq<Instr<L, V>>,
      code': nat -> seq<Instr<L, V>>, plan: nat -> seq<Ranked<V>>, pre: nat -> L, post: nat -> L)
    requires Phase(n, entry, lo, hi, {}, code, plan, pre, post) && forall p: nat | 1 <= p <= n :: code'(p) == code(p)
    ensures Phase(n, entry, lo, hi, {}, code', plan, pre, post)
  {
    forall p: nat | 1 <= p <= n ensures PartyPhase(n, entry, lo, hi, code'(p), plan(p), pre(p), post(p)) {
      assert PartyPhase(n, entry, lo, hi, code(p), plan(p), pre(p), post(p));
    }
  }

  lemma {:induction false} NoRounds<T>(d: Demo<T>, entry: Cell -> Val<T>, lists: nat -> seq<nat>, lo: nat,
      pre: Nodes<T>)
    requires forall p: nat | 1 <= p <= d.c.n && p !in d.dropped :: |lists(p)| == 0
    ensures Phase(d.c.n, entry, lo, lo, {}, Rounds(d, lists), NoPlan(), pre, pre)
  {
    hide Phase;
    forall p: nat | 1 <= p <= d.c.n ensures Rounds(d, lists)(p) == [] {
      if p in d.dropped { DroppedEnding(d, lists(p), p); }
    }
    NothingPhase(d.c.n, entry, lo, lo, pre, Rounds(d, lists), NoPlan());
  }

  /** Where k rounds take everybody. */
  function RoundsAfter<T>(d: Demo<T>, lists: nat -> seq<nat>, k: nat, pre: Nodes<T>): Nodes<T>
    decreases k
  {
    if k == 0 then pre else RoundsAfter(d, Tails(lists), k - 1, RoundAfter(d, Heads(lists), pre))
  }

  /** As many rounds as there are entries on everybody's list. */
  lemma {:induction false} RoundsPhase<T>(d: Demo<T>, entry: Cell -> Val<T>, lists: nat -> seq<nat>, k: nat, lo: nat,
      pre: Nodes<T>) returns (plan: nat -> Plan<T>)
    requires k != 0 ==> EnoughLeft(d)
    requires forall p: nat | 1 <= p <= d.c.n && p !in d.dropped :: |lists(p)| == k
    ensures Phase(d.c.n, entry, lo, lo + 5 * k, {}, Rounds(d, lists), plan, pre, RoundsAfter(d, lists, k, pre))
    decreases k
  {
    NextRounds(d, lists, k, pre);
    hide *;
    var post := RoundsAfter(d, lists, k, pre);
    if k == 0 {
      plan := NoPlan();
      NoRounds(d, entry, lists, lo, pre);
    } else {
      var ids, rest, next := Heads(lists), Tails(lists), RoundAfter(d, Heads(lists), pre);
      RoundPhase(d, entry, ids, lo, pre);
      forall p: nat | 1 <= p <= d.c.n && p !in d.dropped ensures |rest(p)| == k - 1 { OneLess(lists, p); }
      var more := RoundsPhase(d, entry, rest, k - 1, lo + 5, next);
      plan := Then(RoundPlan(d, ids, lo, pre), more);
      PhaseThen(d.c.n, entry, lo, lo + 5, lo + 5 * k, {}, {}, {}, Round(d, ids), RoundPlan(d, ids, lo, pre), pre, next,
          Rounds(d, rest), more, post);
      forall p: nat | 1 <= p <= d.c.n ensures Rounds(d, lists)(p) == Then(Round(d, ids), Rounds(d, rest))(p) {
        OneRoundLess(d, lists, p);
      }
      SamePhase(d.c.n, entry, lo, lo + 5 * k, Then(Round(d, ids), Rounds(d, rest)), Rounds(d, lists), plan, pre, post);
    }
  }

  lemma {:induction false} NextRounds<T>(d: Demo<T>, lists: nat -> seq<nat>, k: nat, pre: Nodes<T>)
    ensures RoundsAfter(d, lists, k, pre)
            == if k == 0 then pre else RoundsAfter(d, Tails(lists), k - 1, RoundAfter(d, Heads(lists), pre))
  {}

  lemma {:induction false} OneLess(lists: nat -> seq<nat>, p: nat)
    requires |lists(p)| != 0
    ensures |Tails(lists)(p)| == |lists(p)| - 1
  {}

  lemma {:induction false} OneRoundLess<T>(d: Demo<T>, lists: nat -> seq<nat>, p: nat)
    requires p in d.dropped || |lists(p)| != 0
    ensures Rounds(d, lists)(p) == Then(Round(d, Heads(lists)), Rounds(d, Tails(lists)))(p)
  {
    if p in d.dropped {
      DroppedEnding(d, lists(p), p);
      DroppedEnding(d, Tails(lists)(p), p);
      assert Round(d, Heads(lists))(p) == [];
    } else {
      hide RecoverOne;
    }
  }

  /** Recoveries that node 1 makes, and the lists of those that take part in them. */
  function Made<T>(d: Demo<T>, view: nat -> set<nat>): nat {
    if 1 in d.dropped then 0 else Recoveries(d.c.n, view(1))
  }
  function Lists<T>(d: Demo<T>, view: nat -> set<nat>): nat -> seq<nat> {
    (p: nat) =>
      if Made(d, view) == 0 || p in SeenBy(d, view, 1).dropped then []
      else Listed(d.c.n, SeenBy(d, view, p).dropped)
  }

  lemma {:induction false} ListsSize<T>(d: Demo<T>, view: nat -> set<nat>, p: nat)
    requires Views(d, view) && Consistent(d, view) && 1 <= p <= d.c.n && p !in SeenBy(d, view, 1).dropped
    ensures |Lists(d, view)(p)| == Made(d, view)
  {
    hide Listed, Recoveries;
    if Made(d, view) != 0 {
      assert p !in d.dropped;
      ListedSize(d.c.n, view(p));
    }
  }

  lemma {:induction false} RecoversInRounds<T>(d: Demo<T>, view: nat -> set<nat>, p: nat)
    requires Views(d, view) && Consistent(d, view) && 1 <= p <= d.c.n
    ensures var seen := SeenBy(d, view, p);
            RecoverAll(seen, Listed(d.c.n, seen.dropped))(p) == Rounds(SeenBy(d, view, 1), Lists(d, view))(p)
  {
    hide Listed, Recoveries, RecoverOne;
    var seen, hub := SeenBy(d, view, p), SeenBy(d, view, 1);
    var ids := Listed(d.c.n, seen.dropped);
    if p in d.dropped {
      DroppedEnding(seen, ids, p);
      DroppedEnding(hub, Lists(d, view)(p), p);
    } else {
      ListedSize(d.c.n, view(p));
      if |ids| != 0 && p != 1 { PeerSame(seen, hub, ids, p); }
      if |ids| == 0 && |Lists(d, view)(p)| != 0 { ListsSize(d, view, p); }
    }
  }

  function Leaving<T>(d: Demo<T>, view: nat -> set<nat>): nat -> Code<T> {
    (p: nat) => Refusing(SeenBy(d, view, p), p)
  }
  function LeavingPlan<T>(d: Demo<T>, view: nat -> set<nat>, lo: nat): nat -> Plan<T> {
    (p: nat) => if |Leaving(d, view)(p)| == 0 then [] else [Ranked(lo, Computed)]
  }
  function Left<T>(d: Demo<T>, view: nat -> set<nat>, pre: Nodes<T>): Nodes<T> {
    (p: nat) => if |Leaving(d, view)(p)| == 0 then pre(p) else FuseOwn(SeenBy(d, view, p))(p)(pre(p))
  }

  lemma {:induction false} LeavingPhase<T>(d: Demo<T>, view: nat -> set<nat>, entry: Cell -> Val<T>, lo: nat,
      pre: Nodes<T>)
    ensures Phase(d.c.n, entry, lo, lo + 1, {}, Leaving(d, view), LeavingPlan(d, view, lo), pre, Left(d, view, pre))
  {
    hide FuseOwn;
    forall p: nat | 1 <= p <= d.c.n
      ensures PartyPhase(d.c.n, entry, lo, lo + 1, Leaving(d, view)(p), LeavingPlan(d, view, lo)(p), pre(p),
                         Left(d, view, pre)(p))
      ensures Silent(LeavingPlan(d, view, lo)(p)) && NoPolls(LeavingPlan(d, view, lo)(p))
    {
      if |Leaving(d, view)(p)| == 0 {
        NonePhase(d.c.n, entry, lo, lo + 1, pre(p));
      } else {
        OnePhase(d.c.n, entry, lo, lo + 1, Leaving(d, view)(p), LeavingPlan(d, view, lo)(p), pre(p));
      }
    }
    SilentPhase(d.c.n, entry, lo, lo + 1, Leaving(d, view), LeavingPlan(d, view, lo), pre, Left(d, view, pre));
  }

  /** The states everybody ends in. */
  function AfterEndings<T>(d: Demo<T>, view: nat -> set<nat>, pre: Nodes<T>): Nodes<T> {
    Left(d, view, RoundsAfter(SeenBy(d, view, 1), Lists(d, view), Made(d, view), pre))
  }

  lemma {:induction false} EndingsPhase<T>(d: Demo<T>, view: nat -> set<nat>, entry: Cell -> Val<T>, lo: nat,
      pre: Nodes<T>) returns (plan: nat -> Plan<T>)
    requires Sound(d.c) && Views(d, view) && Consistent(d, view)
    ensures Phase(d.c.n, entry, lo, lo + 5 * Made(d, view) + 1, {}, Endings(d, view), plan, pre,
            AfterEndings(d, view, pre))
  {
    hide Phase, Rounds, RoundsAfter, Leaving, LeavingPlan, Left, Lists, RecoverAll, Ending, Listed;
    var hub, k := SeenBy(d, view, 1), Made(d, view);
    forall p: nat | 1 <= p <= d.c.n && p !in hub.dropped ensures |Lists(d, view)(p)| == k { ListsSize(d, view, p); }
    var rounds := RoundsPhase(hub, entry, Lists(d, view), k, lo, pre);
    var mid := RoundsAfter(hub, Lists(d, view), k, pre);
    LeavingPhase(d, view, entry, lo + 5 * k, mid);
    plan := Then(rounds, LeavingPlan(d, view, lo + 5 * k));
    var post := Left(d, view, mid);
    PhaseThen(d.c.n, entry, lo, lo + 5 * k, lo + 5 * k + 1, {}, {}, {}, Rounds(hub, Lists(d, view)), rounds, pre, mid,
        Leaving(d, view), LeavingPlan(d, view, lo + 5 * k), post);
    forall p: nat | 1 <= p <= d.c.n
      ensures Endings(d, view)(p) == Then(Rounds(hub, Lists(d, view)), Leaving(d, view))(p)
    {
      EndingIs(SeenBy(d, view, p), p);
      RecoversInRounds(d, view, p);
      assert Leaving(d, view)(p) == Refusing(SeenBy(d, view, p), p) by { LeavingIs(d, view, p); }
    }
    SamePhase(d.c.n, entry, lo, lo + 5 * k + 1, Then(Rounds(hub, Lists(d, view)), Leaving(d, view)), Endings(d, view),
        plan, pre, post);
  }

  lemma {:induction false} LeavingIs<T>(d: Demo<T>, view: nat -> set<nat>, p: nat)
    ensures Leaving(d, view)(p) == Refusing(SeenBy(d, view, p), p)
  {}

  // ---- the partial decryptions, some of which are never taken ----

  function PartsPlan<T(==)>(d: Demo<T>, view: nat -> set<nat>, lo: nat): nat -> Plan<T> {
    (p: nat) => EveryonePlan(d.c.n, d.c.order(p), SeenBy(d, view, p).dropped, lo, p, "partialciphertext", Partials(d))
  }
  function AfterParts<T(==)>(d: Demo<T>, view: nat -> set<nat>): Nodes<T> {
    (p: nat) =>
      if p in SeenBy(d, view, p).dropped then WithPartial(d)(p)
      else Stored(WithPartial(d)(p), 1, d.c.n, {p} + SeenBy(d, view, p).dropped, Partials(d), KeepSlot())
  }

  lemma {:induction false} PartsParty<T>(d: Demo<T>, view: nat -> set<nat>, entry: Cell -> Val<T>, lo: nat, p: nat)
    requires Sound(d.c) && Views(d, view) && 1 <= p <= d.c.n
    ensures PartyPhase(d.c.n, entry, lo, lo + 2, Parts(d, view)(p), PartsPlan(d, view, lo)(p), WithPartial(d)(p),
                       AfterParts(d, view)(p))
    ensures NoPolls(PartsPlan(d, view, lo)(p))
  {
    hide PartyPhase, EveryoneCode, EveryonePlan, Stored, WithCiphers, PartialOf, Others;
    var seen := SeenBy(d, view, p);
    PartsAre(d, view, lo, p);
    assert p !in d.dropped ==> Partials(d)(p) == GetPartial()(WithPartial(d)(p));
    assert Others(d.c.order(p), p, d.c.n) && (p in seen.dropped <==> p in d.dropped);
    EveryoneParty(d.c.n, entry, lo, d.c.order(p), seen.dropped, p, "partialciphertext", GetPartial(), KeepSlot(),
        Partials(d), WithPartial(d)(p));
    OthersDistinct(d.c.order(p), p, d.c.n);
    EveryoneStreams(d.c.n, d.c.order(p), seen.dropped, lo, p, "partialciphertext", Partials(d), p);
  }

  lemma {:induction false} OthersDistinct(order: seq<nat>, p: nat, n: nat)
    requires Others(order, p, n)
    ensures Distinct(order)
  {}

  lemma {:induction false} PartsAre<T>(d: Demo<T>, view: nat -> set<nat>, lo: nat, p: nat)
    ensures var seen := SeenBy(d, view, p);
            && Parts(d, view)(p)
               == EveryoneCode(d.c.n, d.c.order(p), seen.dropped, p, "partialciphertext", GetPartial(), KeepSlot())
            && PartsPlan(d, view, lo)(p)
               == EveryonePlan(d.c.n, d.c.order(p), seen.dropped, lo, p, "partialciphertext", Partials(d))
            && AfterParts(d, view)(p)
               == if p in seen.dropped then WithPartial(d)(p)
                  else Stored(WithPartial(d)(p), 1, d.c.n, {p} + seen.dropped, Partials(d), KeepSlot())
  {
    hide EveryoneCode, EveryonePlan, Stored, WithPartial, Partials;
    var seen := SeenBy(d, view, p);
    assert seen.c == d.c && Parts(d, view)(p) == PartialAll(seen)(p);
  }

  /** What b takes from a is all that a sends it, unless a is on b's list. */
  lemma {:induction false} PartsStreams<T>(d: Demo<T>, view: nat -> set<nat>, lo: nat, a: nat, b: nat)
    requires Sound(d.c) && Views(d, view) && 1 <= a <= d.c.n && 1 <= b <= d.c.n
    ensures var sends, recvs := SendsTo(PartsPlan(d, view, lo)(a), b), RecvsFrom(PartsPlan(d, view, lo)(b), a);
            recvs == sends || ((b in d.dropped || a in view(b)) && a != b && recvs == [])
  {
    hide EveryonePlan, Partials;
    assert Others(d.c.order(a), a, d.c.n) && Others(d.c.order(b), b, d.c.n);
    EveryoneStreams(d.c.n, d.c.order(a), SeenBy(d, view, a).dropped, lo, a, "partialciphertext", Partials(d), b);
    EveryoneStreams(d.c.n, d.c.order(b), SeenBy(d, view, b).dropped, lo, b, "partialciphertext", Partials(d), a);
  }

  /** Nobody waits later on for a party on its list. */
  lemma {:induction false} NotWaited<T>(d: Demo<T>, view: nat -> set<nat>, a: nat, b: nat)
    requires Sound(d.c) && Views(d, view) && Consistent(d, view) && 1 <= a <= d.c.n && 1 <= b <= d.c.n && a != b
    requires b in d.dropped || a in view(b)
    ensures RecvCount(Endings(d, view)(b), a) == 0
  {
    hide Ending, Parts;
    if b in d.dropped {
      DroppedStops(d, view, b);
    } else if b == 1 {
      HubEnding(SeenBy(d, view, 1), a);
    } else {
      PeerEnding(SeenBy(d, view, b), b, a);
    }
  }

  /** Three stages of which the second may leave messages behind that nobody waits for in the third. */
  lemma {:induction false} LeftBehind<L, V>(n: nat, entry: Cell -> V, lo: nat, mid: nat, hi: nat,
      code1: nat -> seq<Instr<L, V>>, plan1: nat -> seq<Ranked<V>>, pre: nat -> L, s1: nat -> L,
      code2: nat -> seq<Instr<L, V>>, plan2: nat -> seq<Ranked<V>>, s2: nat -> L,
      code3: nat -> seq<Instr<L, V>>, plan3: nat -> seq<Ranked<V>>, post: nat -> L)
    requires lo <= mid <= hi && Phase(n, entry, 0, lo, {}, code1, plan1, pre, s1)
    requires Phase(n, entry, mid, hi, {}, code3, plan3, s2, post)
    requires forall p: nat | 1 <= p <= n ::
               PartyPhase(n, entry, lo, mid, code2(p), plan2(p), s1(p), s2(p)) && NoPolls(plan2(p))
    requires forall a: nat, b: nat | 1 <= a <= n && 1 <= b <= n ::
               || RecvsFrom(plan2(b), a) == SendsTo(plan2(a), b)
               || (RecvsFrom(plan2(b), a) == [] && RecvCount(code3(b), a) == 0)
    ensures GoodPlan(n, Then(Then(code1, code2), code3), pre, Then(Then(plan1, plan2), plan3), entry)
    ensures forall p: nat | 1 <= p <= n ::
              Outcome(pre(p), code1(p) + code2(p) + code3(p), plan1(p) + plan2(p) + plan3(p)) == post(p)
  {
    hide PartyPhase, PollsServed, Outcome;
    var code, plan := Then(Then(code1, code2), code3), Then(Then(plan1, plan2), plan3);
    forall p: nat | 1 <= p <= n
      ensures PartyFits(n, entry, Party(code(p), pre(p), true), plan(p)) && Outcome(pre(p), code(p), plan(p)) == post(p)
    {
      PartyThen(n, entry, 0, lo, mid, code1(p), plan1(p), pre(p), s1(p), code2(p), plan2(p), s2(p));
      PartyThen(n, entry, 0, mid, hi, code1(p) + code2(p), plan1(p) + plan2(p), pre(p), s2(p), code3(p), plan3(p),
          post(p));
      PartyIsFit(n, entry, 0, hi, code(p), plan(p), pre(p), post(p));
    }
    forall a: nat, b: nat | 1 <= a <= n && 1 <= b <= n ensures RecvsFrom(plan(b), a) <= SendsTo(plan(a), b) {
      assert Matched(b in {}, SendsTo(plan1(a), b), RecvsFrom(plan1(b), a));
      assert Matched(b in {}, SendsTo(plan3(a), b), RecvsFrom(plan3(b), a));
      HearsAsPlanned(n, entry, mid, hi, code3(b), plan3(b), s2(b), post(b), a);
      ThreeStreams(plan1(a), plan2(a), plan3(a), b);
      ThreeStreams(plan1(b), plan2(b), plan3(b), a);
    }
    assert PollsServed(n, map[], plan2) by { NoneServed(n, plan2); }
    PollsThen(n, plan1, plan2, Then(plan1, plan2));
    PollsThen(n, Then(plan1, plan2), plan3, plan);
  }

  lemma {:induction false} PartyIsFit<L, V>(n: nat, entry: Cell -> V, lo: nat, hi: nat, code: seq<Instr<L, V>>,
      plan: seq<Ranked<V>>, pre: L, post: L)
    requires PartyPhase(n, entry, lo, hi, code, plan, pre, post)
    ensures PartyFits(n, entry, Party(code, pre, true), plan) && Outcome(pre, code, plan) == post
  {}

  lemma {:induction false} HearsAsPlanned<L, V>(n: nat, entry: Cell -> V, lo: nat, hi: nat, code: seq<Instr<L, V>>,
      plan: seq<Ranked<V>>, pre: L, post: L, a: nat)
    requires PartyPhase(n, entry, lo, hi, code, plan, pre, post)
    ensures |RecvsFrom(plan, a)| == RecvCount(code, a)
  {
    CountsFollowPlan(pre, code, plan, a);
  }

  lemma {:induction false} ThreeStreams<V>(x: seq<Ranked<V>>, y: seq<Ranked<V>>, z: seq<Ranked<V>>, b: nat)
    ensures SendsTo(x + y + z, b) == SendsTo(x, b) + SendsTo(y, b) + SendsTo(z, b)
    ensures RecvsFrom(x + y + z, b) == RecvsFrom(x, b) + RecvsFrom(y, b) + RecvsFrom(z, b)
  {
    ConcatStreams(x, y, b);
    ConcatStreams(x + y, z, b);
  }

  lemma {:induction false} NoneServed<V>(n: nat, plan: nat -> seq<Ranked<V>>)
    requires forall p: nat | 1 <= p <= n :: NoPolls(plan(p))
    ensures PollsServed(n, map[], plan)
  {}

  /** The whole run, given a plan for what follows the partial decryptions. */
  lemma {:induction false} RunToEnd<T>(d: Demo<T>, view: nat -> set<nat>, entry: Cell -> Val<T>, hi: nat,
      plan: nat -> Plan<T>, post: Nodes<T>, who: seq<nat>)
    requires Sound(d.c) && Views(d, view) && Consistent(d, view) && 7 * d.c.n + 25 <= hi
    requires Phase(d.c.n, entry, 7 * d.c.n + 25, hi, {}, Endings(d, view), plan, AfterParts(d, view), post)
    requires CanRun(Start(d.c.n, Suspecting(d, view), AtStart()), who)
    ensures var start := Start(d.c.n, Suspecting(d, view), AtStart()); var net := Run(start, who);
            && GoesWell(d.c.n, start, net, |who|)
            && (Finished(d.c.n, net) ==> forall p: nat | 1 <= p <= d.c.n :: net.party[p].st == post(p))
  {
    hide Phase, PartyPhase, Before, OpeningPlan, MiddlePlan, Parts, PartsPlan, AfterParts, Endings, WithPartial,
        AtStart, Consistent, Views, GoesWell, Run, CanRun, NoPolls, GoodPlan, Outcome, CarriesPlan;
    var n, lo := d.c.n, 7 * d.c.n + 23;
    var before, parts := Then(OpeningPlan(d), MiddlePlan(d)), PartsPlan(d, view, lo);
    BeforePhase(d, entry);
    forall p: nat | 1 <= p <= n
      ensures PartyPhase(n, entry, lo, lo + 2, Parts(d, view)(p), parts(p), WithPartial(d)(p), AfterParts(d, view)(p))
      ensures NoPolls(parts(p))
    {
      PartsParty(d, view, entry, lo, p);
    }
    forall a: nat, b: nat | 1 <= a <= n && 1 <= b <= n
      ensures || RecvsFrom(parts(b), a) == SendsTo(parts(a), b)
              || (RecvsFrom(parts(b), a) == [] && RecvCount(Endings(d, view)(b), a) == 0)
    {
      PartsStreams(d, view, lo, a, b);
      if a != b && (b in d.dropped || a in view(b)) { NotWaited(d, view, a, b); }
    }
    LeftBehind(n, entry, lo, lo + 2, hi, Before(d), before, AtStart(), WithPartial(d), Parts(d, view), parts,
        AfterParts(d, view), Endings(d, view), plan, post);
    EveryRun(n, Suspecting(d, view), AtStart(), Then(Then(before, parts), plan), entry, who);
  }

  lemma {:induction false} ConsistentRun<T>(d: Demo<T>, view: nat -> set<nat>, entry: Cell -> Val<T>, who: seq<nat>)
    requires Sound(d.c) && Views(d, view) && Consistent(d, view)
    requires CanRun(Start(d.c.n, Suspecting(d, view), AtStart()), who)
    ensures var start := Start(d.c.n, Suspecting(d, view), AtStart()); var net := Run(start, who);
            && GoesWell(d.c.n, start, net, |who|)
            && (Finished(d.c.n, net) ==> forall p: nat | 1 <= p <= d.c.n ::
                  net.party[p].st == AfterEndings(d, view, AfterParts(d, view))(p))
  {
    hide *;
    var lo := 7 * d.c.n + 25;
    var plan := EndingsPhase(d, view, entry, lo, AfterParts(d, view));
    RunToEnd(d, view, entry, lo + 5 * Made(d, view) + 1, plan, AfterEndings(d, view, AfterParts(d, view)), who);
  }

  // ---- exactly when ----

  /** Whatever the survivors' timeouts make them believe: a run that can go no further has let all of
      them through if and only if their lists are consistent, and then no interleaving goes wrong before. */
  lemma {:induction false} SuspicionsDecide<T>(d: Demo<T>, view: nat -> set<nat>, entry: Cell -> Val<T>, who: seq<nat>)
    requires Sound(d.c) && Views(d, view) && CanRun(Start(d.c.n, Suspecting(d, view), AtStart()), who)
    ensures var start := Start(d.c.n, Suspecting(d, view), AtStart()); var net := Run(start, who);
            && (Consistent(d, view) ==> GoesWell(d.c.n, start, net, |who|))
            && (SurvivorsThrough(d, net) ==> Consistent(d, view))
            && (Halted(d.c.n, net) ==> (SurvivorsThrough(d, net) <==> Consistent(d, view)))
  {
    hide Suspecting, AtStart, Run, CanRun, Recoveries, MadeWith, Views, Through, KindsMatch, Work, Waits;
    var net := Run(Start(d.c.n, Suspecting(d, view), AtStart()), who);
    if Consistent(d, view) {
      ConsistentRun(d, view, entry, who);
      if Halted(d.c.n, net) {
        assert Finished(d.c.n, net);
        forall p: nat | 1 <= p <= d.c.n && p !in d.dropped ensures Through(net, p) { FinishedThrough(d.c.n, net, p); }
      }
    }
    if SurvivorsThrough(d, net) {
      forall p: nat | 1 < p <= d.c.n && p !in d.dropped
        ensures Recoveries(d.c.n, view(p)) == MadeWith(d, view, p) && (1 in view(p) ==> Recoveries(d.c.n, view(p)) == 0)
      {
        PeerConsistent(d, view, entry, p, who);
      }
      if 1 !in d.dropped && Recoveries(d.c.n, view(1)) != 0 { EnoughForOne(d, view, entry, who); }
    }
  }

  lemma {:induction false} FinishedThrough<T>(n: nat, net: Net<Node<T>, Val<T>>, p: nat)
    requires Parties(n, net) && Finished(n, net) && 1 <= p <= n && net.party[p].ok
    ensures Through(net, p)
  {}
}

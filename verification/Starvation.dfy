/** When too few parties are left the recovery waits for ever although its guard let it start; and
    exactly when that is. */
module Starvation {
  import Rings
  import opened KeyAlgebra
  import opened Network
  import opened Phases
  import opened Patterns
  import opened JointKeys
  import KeyTheorems
  import opened Dropouts
  import opened DropoutRuns
  import Recovery

  // ---- a party that waits for more messages than it will be sent ----

  function SendCount<L, V>(code: seq<Instr<L, V>>, b: nat): nat {
    if |code| == 0 then 0 else (if code[0].Send? && code[0].to == b then 1 else 0) + SendCount(code[1..], b)
  }

  function RecvCount<L, V>(code: seq<Instr<L, V>>, a: nat): nat {
    if |code| == 0 then 0 else (if code[0].Recv? && code[0].from == a then 1 else 0) + RecvCount(code[1..], a)
  }

  /** What a still has to send to b; nothing if there is no such party. */
  function Unsent<L, V>(net: Net<L, V>, a: nat, b: nat): nat {
    if a in net.party then SendCount(net.party[a].code, b) else 0
  }

  /** As long as b has not gone wrong, it still waits for more messages from a than are under way
      or still to be sent. */
  ghost predicate Owed<L, V>(net: Net<L, V>, a: nat, b: nat) {
    && b in net.party
    && (net.party[b].ok ==> |Pipe(net, a, b)| + Unsent(net, a, b) < RecvCount(net.party[b].code, a))
  }

  lemma {:induction false} StepOwed<L, V>(net: Net<L, V>, a: nat, b: nat, p: nat)
    requires Owed(net, a, b) && p in net.party && !Waits(net, p)
    ensures Owed(After(net, p), a, b)
  {}

  lemma {:induction false} RunOwed<L, V>(net: Net<L, V>, a: nat, b: nat, who: seq<nat>)
    requires Owed(net, a, b) && CanRun(net, who)
    ensures Owed(Run(net, who), a, b)
    decreases |who|
  {
    if |who| != 0 {
      StepOwed(net, a, b, who[0]);
      RunOwed(After(net, who[0]), a, b, who[1..]);
    }
  }

  /** A party whose code receives from a more often than a's code, if there is an a, sends to it never
      gets through. */
  lemma {:induction false} NeverThrough<L, V>(n: nat, code: nat -> seq<Instr<L, V>>, init: nat -> L, a: nat, b: nat,
      who: seq<nat>)
    requires 1 <= b <= n && (if 1 <= a <= n then SendCount(code(a), b) else 0) < RecvCount(code(b), a)
             && CanRun(Start(n, code, init), who)
    ensures var net := Run(Start(n, code, init), who); b in net.party && !(net.party[b].ok && |net.party[b].code| == 0)
  {
    RunOwed(Start(n, code, init), a, b, who);
  }

  /** Nobody can go on. */
  ghost predicate Halted<L, V>(n: nat, net: Net<L, V>) {
    forall p: nat | 1 <= p <= n :: p in net.party && Waits(net, p)
  }

  lemma {:induction false} FewerLeft<L, V>(net: Net<L, V>, next: Net<L, V>, n: nat, m: nat, p: nat)
    requires m <= n && Parties(n, net) && Parties(n, next) && 1 <= p <= n
    requires |next.party[p].code| < |net.party[p].code|
    requires forall q: nat | 1 <= q <= n && q != p :: next.party[q].code == net.party[q].code
    ensures CodeLeft(next, n, m) + (if p <= m then 1 else 0) <= CodeLeft(net, n, m)
  {
    if m != 0 { FewerLeft(net, next, n, m - 1, p); }
  }

  /** Whatever the programs, a run can always be continued until nobody can go on. */
  lemma {:induction false} RunsHalt<L, V>(n: nat, net: Net<L, V>) returns (more: seq<nat>)
    requires Parties(n, net)
    ensures CanRun(net, more) && Halted(n, Run(net, more))
    decreases Work(n, net)
  {
    if p: nat :| 1 <= p <= n && !Waits(net, p) {
      assert Parties(n, After(net, p));
      FewerLeft(net, After(net, p), n, n, p);
      var rest := RunsHalt(n, After(net, p));
      more := [p] + rest;
      assert more[1..] == rest;
    } else {
      more := [];
    }
  }

  // ---- counting ----

  lemma {:induction false} CountsConcat<L, V>(x: seq<Instr<L, V>>, y: seq<Instr<L, V>>, b: nat)
    ensures SendCount(x + y, b) == SendCount(x, b) + SendCount(y, b) && RecvCount(x + y, b) == RecvCount(x,
             b) + RecvCount(y, b)
    decreases |x|
  {
    if |x| == 0 { assert x + y == y; }
    else { CountsConcat(x[1..], y, b); assert (x + y)[1..] == x[1..] + y; }
  }

  lemma {:induction false} CountsFollowPlan<L, V>(st: L, code: seq<Instr<L, V>>, plan: seq<Ranked<V>>, b: nat)
    requires Conforms(st, code, plan)
    ensures SendCount(code, b) == |SendsTo(plan, b)| && RecvCount(code, b) == |RecvsFrom(plan, b)|
    decreases |code|
  {
    if |code| != 0 { CountsFollowPlan(Effect(st, code[0], plan[0].ev), code[1..], plan[1..], b); }
  }

  lemma {:induction false} PhaseCounts<L, V>(n: nat, entry: Cell -> V, lo: nat, hi: nat, done: set<nat>,
      code: nat -> seq<Instr<L, V>>, plan: nat -> seq<Ranked<V>>, pre: nat -> L, post: nat -> L, a: nat, b: nat)
    requires Phase(n, entry, lo, hi, done, code, plan, pre, post) && 1 <= a <= n && 1 <= b <= n && b !in done
    ensures SendCount(code(a), b) == RecvCount(code(b), a)
  {
    assert PartyPhase(n, entry, lo, hi, code(a), plan(a), pre(a), post(a))
        && PartyPhase(n, entry, lo, hi, code(b), plan(b), pre(b), post(b));
    CountsFollowPlan(pre(a), code(a), plan(a), b);
    CountsFollowPlan(pre(b), code(b), plan(b), a);
    assert Matched(b in done, SendsTo(plan(a), b), RecvsFrom(plan(b), a));
  }

  lemma {:induction false} SendAllCounts<L, V>(order: seq<nat>, kind: string, what: L -> V, b: nat)
    ensures RecvCount(SendAll(order, kind, what), b) == 0 && (b !in order ==>
             SendCount(SendAll(order, kind, what), b) == 0)
    decreases |order|
  {
    if |order| != 0 {
      SendAllCounts(order[1..], kind, what, b);
      assert SendAll(order, kind, what)[1..] == SendAll(order[1..], kind, what);
    }
  }

  lemma {:induction false} SendAllOnce<L, V>(order: seq<nat>, kind: string, what: L -> V, b: nat)
    requires Distinct(order)
    ensures SendCount(SendAll(order, kind, what), b) == if b in order then 1 else 0
    decreases |order|
  {
    if |order| != 0 {
      SendAllOnce(order[1..], kind, what, b);
      assert SendAll(order, kind, what)[1..] == SendAll(order[1..], kind, what);
    }
  }

  lemma {:induction false} RecvAllCounts<L, V>(i: nat, n: nat, skip: set<nat>, kind: string, store: nat -> (L, V) -> L,
      a: nat)
    ensures SendCount(RecvAll(i, n, skip, kind, store), a) == 0
    ensures RecvCount(RecvAll(i, n, skip, kind, store), a) == if i <= a <= n && a !in skip then 1 else 0
    decreases n + 1 - i
  {
    if i <= n {
      RecvAllCounts(i + 1, n, skip, kind, store, a);
      if i !in skip { assert RecvAll(i, n, skip, kind, store)[1..] == RecvAll(i + 1, n, skip, kind, store); }
    }
  }

  lemma {:induction false} CollectSendsNothing<L, V>(n: nat, skip: set<nat>, kind: string, store: nat -> (L, V) -> L,
      count: nat, threshold: nat, b: nat)
    ensures SendCount(Collect(n, skip, kind, store, count, threshold), b) == 0
    decreases threshold - count
  {
    var live := |LiveIds(1, n, skip)|;
    if count < threshold && live != 0 {
      RecvAllCounts(1, n, skip, kind, store, b);
      CollectSendsNothing(n, skip, kind, store, count + live, threshold, b);
      CountsConcat(RecvAll(1, n, skip, kind, store), Collect(n, skip, kind, store, count + live, threshold), b);
    }
  }

  /** The statements of the recovery wait for each peer alive as often as the collection loop, run as
      a loop, makes passes. */
  lemma {:induction false} CollectMakesPasses<L, V>(n: nat, skip: set<nat>, kind: string, store: nat -> (L, V) -> L,
      count: nat, threshold: nat, a: nat)
    requires 1 <= a <= n && a !in skip && |LiveIds(1, n, skip)| != 0
    ensures RecvCount(Collect(n, skip, kind, store, count, threshold), a)
            == Recovery.Passes(|LiveIds(1, n, skip)|, count, threshold)
    decreases threshold - count
  {
    var live := |LiveIds(1, n, skip)|;
    if count < threshold {
      RecvAllCounts(1, n, skip, kind, store, a);
      CollectMakesPasses(n, skip, kind, store, count + live, threshold, a);
      CountsConcat(RecvAll(1, n, skip, kind, store), Collect(n, skip, kind, store, count + live, threshold), a);
    }
  }

  // ---- the recovery when too few are left ----

  /** The guard before the recovery lets these dropouts pass, but they leave too few shares. */
  predicate TooFew<T>(d: Demo<T>) {
    && 2 <= d.c.n && 1 !in d.dropped && (forall i | i in d.dropped :: 1 <= i <= d.c.n)
    && 0 < |d.dropped| < Threshold(d.c.n) && d.c.n - |d.dropped| < Threshold(d.c.n)
  }

  /** Somebody alive other than node 1, or node 1 itself when it is alone. */
  lemma {:induction false} SomePeer<T>(d: Demo<T>) returns (a: nat)
    requires TooFew(d)
    ensures 1 <= a <= d.c.n && a !in d.dropped && (a == 1 <==> |LiveIds(1, d.c.n, {1} + d.dropped)| == 0)
  {
    LiveIdsAre(1, d.c.n, {1} + d.dropped);
    var live := LiveIds(1, d.c.n, {1} + d.dropped);
    if |live| == 0 { a := 1; } else { a := live[0]; assert a in live; }
  }

  /** Node 1 then waits for a second share of the same secret from the same peer. */
  lemma {:induction false} CollectStarves<L, V>(n: nat, dropped: set<nat>, kind: string, store: nat -> (L, V) -> L,
      a: nat)
    requires 2 <= n && 1 !in dropped && (forall j | j in dropped :: 1 <= j <= n) && n - |dropped| < Threshold(n)
    requires 1 <= a <= n && a !in dropped && (a == 1 <==> |LiveIds(1, n, {1} + dropped)| == 0)
    ensures RecvCount(Collect(n, {1} + dropped, kind, store, 1, Threshold(n)), a) >= if a == 1 then 1 else 2
  {
    var skip := {1} + dropped;
    LiveCount(1, n, skip);
    assert |skip| == 1 + |dropped|;
    var live := |LiveIds(1, n, skip)|;
    if a != 1 {
      var pass, rest := RecvAll(1, n, skip, kind, store), Collect(n, skip, kind, store, 1 + live, Threshold(n));
      var more := Collect(n, skip, kind, store, 1 + live + live, Threshold(n));
      RecvAllCounts(1, n, skip, kind, store, a);
      CountsConcat(pass, rest, a);
      CountsConcat(pass, more, a);
      assert rest == pass + more;
    }
  }

  lemma {:induction false} OneStarves<T>(d: Demo<T>, i: nat, a: nat)
    requires TooFew(d) && 1 <= a <= d.c.n && a !in d.dropped && (a == 1 <==> |LiveIds(1, d.c.n, {1} + d.dropped)| == 0)
    ensures SendCount(RecoverOne(d, i)(a), 1) < RecvCount(RecoverOne(d, i)(1), a)
  {
    var live := LiveIds(1, d.c.n, {1} + d.dropped);
    var begin: Code<T> := [Let(OwnShare(i))];
    var collect: Code<T> := Collect(d.c.n, {1} + d.dropped, "secretsharerecovery", KeepRecovery(), 1, Threshold(d.c.n));
    var compute: Code<T> := [Let(Recover(d, i))];
    var tell: Code<T> := SendAll(live, "abortspartialciphertext", GetSlot(i));
    hide Collect, SendAll, LiveIds;
    CollectStarves<Node<T>, Val<T>>(d.c.n, d.dropped, "secretsharerecovery", KeepRecovery(), a);
    assert RecoverOne(d, i)(1) == begin + collect + (compute + tell);
    CountsConcat(begin, collect, a);
    CountsConcat(compute, tell, a);
    CountsConcat(begin + collect, compute + tell, a);
    if a == 1 {
      LiveIdsAre(1, d.c.n, {1} + d.dropped);
      SendAllCounts<Node<T>, Val<T>>(live, "abortspartialciphertext", GetSlot(i), 1);
      CollectSendsNothing<Node<T>, Val<T>>(d.c.n, {1} + d.dropped, "secretsharerecovery", KeepRecovery(), 1,
          Threshold(d.c.n), 1);
    } else {
      var ask: Code<T> := [Send(1, "secretsharerecovery", SendShare(i))];
      var get: Code<T> := [Recv(1, "abortspartialciphertext", SetSlot(i))];
      assert RecoverOne(d, i)(a) == ask + get;
      CountsConcat(ask, get, 1);
      assert ask[1..] == [] && get[1..] == [];
    }
  }

  lemma {:induction false} AllStarve<T>(d: Demo<T>, ids: seq<nat>, a: nat)
    requires TooFew(d) && 1 <= a <= d.c.n && a !in d.dropped && (a == 1 <==> |LiveIds(1, d.c.n, {1} + d.dropped)| == 0)
    ensures SendCount(RecoverAll(d, ids)(a), 1) + |ids| <= RecvCount(RecoverAll(d, ids)(1), a)
    decreases |ids|
  {
    hide RecoverOne, TooFew;
    if |ids| != 0 {
      OneStarves(d, ids[0], a);
      AllStarve(d, ids[1..], a);
      CountsConcat(RecoverOne(d, ids[0])(a), RecoverAll(d, ids[1..])(a), 1);
      CountsConcat(RecoverOne(d, ids[0])(1), RecoverAll(d, ids[1..])(1), a);
    }
  }

  lemma {:induction false} NacksCount<T>(d: Demo<T>)
    requires 0 < |d.dropped| && forall i | i in d.dropped :: 1 <= i <= d.c.n
    ensures 0 < |Nacks(1, d.c.n, d.dropped)|
  {
    var i :| i in d.dropped;
    assert i in Nacks(1, d.c.n, d.dropped);
  }

  lemma {:induction false} EndingStarves<T>(d: Demo<T>, a: nat)
    requires TooFew(d) && 1 <= a <= d.c.n && a !in d.dropped && (a == 1 <==> |LiveIds(1, d.c.n, {1} + d.dropped)| == 0)
    ensures SendCount(Ending(d)(a), 1) < RecvCount(Ending(d)(1), a)
  {
    hide RecoverAll, Nacks;
    var ids := Nacks(1, d.c.n, d.dropped);
    NacksCount(d);
    AllStarve(d, ids, a);
    CountsConcat(RecoverAll(d, ids)(a), FuseAll(d)(a), 1);
    CountsConcat(RecoverAll(d, ids)(1), FuseAll(d)(1), a);
    assert Ending(d)(a) == RecoverAll(d, ids)(a) + FuseAll(d)(a);
    assert Ending(d)(1) == RecoverAll(d, ids)(1) + FuseAll(d)(1);
    assert FuseAll(d)(a)[1..] == [] && FuseAll(d)(1)[1..] == [];
  }

  /** A party alive whose part of the recovery waits for more from a than a's part sends it never gets
      through. */
  lemma {:induction false} EndingDecides<T>(d: Demo<T>, entry: Cell -> Val<T>, a: nat, b: nat, who: seq<nat>)
    requires Sound(d.c) && 1 <= a <= d.c.n && 1 <= b <= d.c.n && b !in d.dropped
    requires SendCount(Ending(d)(a), b) < RecvCount(Ending(d)(b), a)
    requires CanRun(Start(d.c.n, Program(d), AtStart()), who)
    ensures !Through(Run(Start(d.c.n, Program(d), AtStart()), who), b)
  {
    hide Phase, Beginning, BeginningPlan, Ending, AtStart, WithPartials, Run, CanRun;
    BeginningPhase(d, entry);
    PhaseCounts(d.c.n, entry, 0, 7 * d.c.n + 25, d.dropped, Beginning(d), BeginningPlan(d), AtStart(), WithPartials(d),
        a, b);
    CountsConcat(Beginning(d)(a), Ending(d)(a), b);
    CountsConcat(Beginning(d)(b), Ending(d)(b), a);
    NeverThrough(d.c.n, Program(d), AtStart(), a, b, who);
  }

  /** In no interleaving does node 1 get through. */
  lemma {:induction false} TooFewStarve<T>(d: Demo<T>, entry: Cell -> Val<T>, who: seq<nat>)
    requires Sound(d.c) && TooFew(d) && CanRun(Start(d.c.n, Program(d), AtStart()), who)
    ensures !Through(Run(Start(d.c.n, Program(d), AtStart()), who), 1)
  {
    hide Ending, Run, CanRun;
    var a := SomePeer(d);
    EndingStarves(d, a);
    EndingDecides(d, entry, a, 1, who);
  }

  // ---- the recovery without node 1 ----

  lemma {:induction false} AllLeaderless<T>(d: Demo<T>, ids: seq<nat>, b: nat)
    requires 1 in d.dropped && b !in d.dropped
    ensures SendCount(RecoverAll(d, ids)(1), b) == 0 && RecvCount(RecoverAll(d, ids)(b), 1) == |ids|
    decreases |ids|
  {
    if |ids| != 0 {
      AllLeaderless(d, ids[1..], b);
      CountsConcat(RecoverOne(d, ids[0])(1), RecoverAll(d, ids[1..])(1), b);
      CountsConcat(RecoverOne(d, ids[0])(b), RecoverAll(d, ids[1..])(b), 1);
      var ask: Instr<Node<T>, Val<T>> := Send(1, "secretsharerecovery", SendShare(ids[0]));
      var get: Instr<Node<T>, Val<T>> := Recv(1, "abortspartialciphertext", SetSlot(ids[0]));
      assert RecoverOne(d, ids[0])(b) == [ask, get];
      assert [ask, get][1..] == [get] && [get][1..] == [];
    }
  }

  /** With node 1 dropped out the guard lets pass, everybody else waits for ever for what node 1
      should have recovered. */
  lemma {:induction false} LeaderlessStarve<T>(d: Demo<T>, entry: Cell -> Val<T>, b: nat, who: seq<nat>)
    requires Sound(d.c) && (forall i | i in d.dropped :: 1 <= i <= d.c.n) && |d.dropped| < Threshold(d.c.n)
    requires 1 in d.dropped && 1 <= b <= d.c.n && b !in d.dropped
    requires CanRun(Start(d.c.n, Program(d), AtStart()), who)
    ensures !Through(Run(Start(d.c.n, Program(d), AtStart()), who), b)
  {
    hide RecoverAll, Nacks, Run, CanRun, Program;
    var ids := Nacks(1, d.c.n, d.dropped);
    NacksCount(d);
    AllLeaderless(d, ids, b);
    CountsConcat(RecoverAll(d, ids)(1), FuseAll(d)(1), b);
    CountsConcat(RecoverAll(d, ids)(b), FuseAll(d)(b), 1);
    assert Ending(d)(1) == RecoverAll(d, ids)(1) + FuseAll(d)(1);
    assert Ending(d)(b) == RecoverAll(d, ids)(b) + FuseAll(d)(b);
    assert FuseAll(d)(1) == [] && FuseAll(d)(b)[1..] == [];
    EndingDecides(d, entry, 1, b, who);
  }

  // ---- the recovery refused ----

  lemma {:induction false} RefusedPhase<T>(d: Demo<T>, entry: Cell -> Val<T>)
    requires Sound(d.c) && |d.dropped| >= Threshold(d.c.n)
    ensures Phase(d.c.n, entry, 0, 7 * d.c.n + 25, d.dropped, Program(d), Then(BeginningPlan(d), NoPlan()), AtStart(),
            WithPartials(d))
  {
    hide Phase, Beginning, BeginningPlan, AtStart, WithPartials, Then;
    var n := d.c.n;
    BeginningPhase(d, entry);
    NothingPhase(n, entry, 7 * n + 25, 7 * n + 25, WithPartials(d), NoCode(), NoPlan());
    assert d.dropped + {} == d.dropped;
    PhaseThen(n, entry, 0, 7 * n + 25, 7 * n + 25, d.dropped, {}, d.dropped, Beginning(d), BeginningPlan(d), AtStart(),
        WithPartials(d), NoCode(), NoPlan(), WithPartials(d));
  }

  lemma {:induction false} SlotsLack<T>(d: Demo<T>, p: nat)
    requires (forall i | i in d.dropped :: 1 <= i <= d.c.n) && d.dropped != {} && p !in d.dropped
    ensures !EndsWell(d, WithPartials(d)(p))
  {
    hide WithPartials, ResultOf, CanRecover, OpKey, JointOpKey;
    SurvivorsCanRecover(d, p);
    var i :| i in d.dropped;
    assert i !in WithPartials(d)(p).slots;
  }

  /** When the guard raises its error the survivors are left without the dropped parties' slots. */
  lemma {:induction false} Refused<T>(d: Demo<T>, entry: Cell -> Val<T>, p: nat, who: seq<nat>)
    requires Sound(d.c) && (forall i | i in d.dropped :: 1 <= i <= d.c.n) && 1 <= p <= d.c.n && p !in d.dropped
    requires |d.dropped| >= Threshold(d.c.n)
    requires CanRun(Start(d.c.n, Program(d), AtStart()), who)
             && Halted(d.c.n, Run(Start(d.c.n, Program(d), AtStart()), who))
    ensures p in Run(Start(d.c.n, Program(d), AtStart()), who).party
            && !EndsWell(d, Run(Start(d.c.n, Program(d), AtStart()), who).party[p].st)
  {
    hide Phase, Program, BeginningPlan, AtStart, WithPartials, Run, CanRun, EndsWell, Then, Waits, KindsMatch,
        CarriesPlan;
    RefusedPhase(d, entry);
    EveryPhaseRun(d.c.n, entry, 7 * d.c.n + 25, d.dropped, Program(d), Then(BeginningPlan(d), NoPlan()), AtStart(),
        WithPartials(d), who);
    SlotsLack(d, p);
  }

  /** As many dropouts as more than half of all parties: no interleaving goes wrong or gets stuck, nobody
      recovers anything, and the survivors end, without a plaintext, with the partial decryptions they
      were sent. */
  lemma {:induction false} RefusedEveryRun<T>(d: Demo<T>, entry: Cell -> Val<T>, who: seq<nat>)
    requires Sound(d.c) && (forall i | i in d.dropped :: 1 <= i <= d.c.n) && |d.dropped| >= d.c.n / 2 + 1
    requires CanRun(Start(d.c.n, Program(d), AtStart()), who)
    ensures var start := Start(d.c.n, Program(d), AtStart()); var net := Run(start, who);
            && GoesWell(d.c.n, start, net, |who|)
            && (Finished(d.c.n, net) ==> forall p: nat | 1 <= p <= d.c.n && p !in d.dropped ::
                  && net.party[p].st.plaintext == Text && (forall j :: j in net.party[p].st.slots <==>
                        1 <= j <= d.c.n && j !in d.dropped))
  {
    hide Phase, Program, BeginningPlan, AtStart, WithPartials, Run, CanRun, Then, GoesWell, CarriesPlan;
    RefusedPhase(d, entry);
    EveryPhaseRun(d.c.n, entry, 7 * d.c.n + 25, d.dropped, Program(d), Then(BeginningPlan(d), NoPlan()), AtStart(),
        WithPartials(d), who);
    forall p: nat | p !in d.dropped
      ensures WithPartials(d)(p).plaintext == Text
      ensures forall j :: j in WithPartials(d)(p).slots <==> 1 <= j <= d.c.n && j !in d.dropped
    {
      NoPlaintextYet(d, p);
    }
  }

  lemma {:induction false} NoPlaintextYet<T>(d: Demo<T>, p: nat)
    requires p !in d.dropped
    ensures WithPartials(d)(p).plaintext == Text
    ensures forall j :: j in WithPartials(d)(p).slots <==> 1 <= j <= d.c.n && j !in d.dropped
  {
    hide CanRecover, OpKey, JointOpKey, PubOf, Result, PartialOf, WithKeys;
    SurvivorsCanRecover(d, p);
    NothingFusedYet(d, p);
    assert WithCipher(d)(p) == WithKeys(d)(p).(cipher := CipherOf(d)(p), ciphers := map[p := CipherOf(d)(p)]);
    assert WithCiphers(d)(p) == WithCipher(d)(p).(ciphers := AllCiphers(d));
    assert WithPartial(d)(p) == WithCiphers(d)(p).(result := Result(d), partial := Partials(d)(p),
        slots := map[p := Partials(d)(p)]);
    assert WithPartials(d)(p) == WithPartial(d)(p).(slots := AliveSlots(d));
  }

  lemma {:induction false} NothingFusedYet<T>(d: Demo<T>, p: nat)
    ensures WithKeys(d)(p).plaintext == Text
  {
    hide SharesFor, PubOf, FwdOf, BwdOf, Sum0Of, Sum1Of;
    var k := WithShares(d);
    assert WithPub(d.c, AtStart())(p) == Blank().(pubKey := PubOf(d.c)(p));
    assert AfterPub(d.c, AtStart())(p) == WithPub(d.c, AtStart())(p).(finalPub := PubOf(d.c)(d.c.n));
    assert k(p) == AfterPub(d.c, AtStart())(p).(recdShares := SharesFor(d, p));
    hide WithShares;
    match d.op
    case Multiply =>
      assert WithEval(d.c, k)(p) == k(p).(evalKey := FwdOf(d.c)(p));
      assert WithAll(d.c, k)(p) == WithEval(d.c, k)(p).(evalKeyAll := FwdOf(d.c)(d.c.n));
      assert WithMix(d.c, k)(p) == WithAll(d.c, k)(p).(mixKey := BwdOf(d.c)(p));
      assert WithKeys(d)(p) == WithMix(d.c, k)(p).(evalMultFinal := BwdOf(d.c)(1));
    case Add =>
    case VectorSum =>
      assert WithSum(d.c, k)(p) == k(p).(sumKey0 := Sum0Of(d.c)(p), sumKey1 := Sum1Of(d.c)(p));
      assert WithKeys(d)(p) == WithSum(d.c, k)(p).(evalSumFinal := Sum1Of(d.c)(d.c.n));
  }

  // ---- exactly when ----

  ghost predicate Through<T>(net: Net<Node<T>, Val<T>>, p: nat) {
    p in net.party && net.party[p].ok && |net.party[p].code| == 0
  }

  /** The guard before the recovery. */
  predicate GuardPasses<T>(d: Demo<T>) { d.dropped == {} || |d.dropped| < Threshold(d.c.n) }

  /** Nobody dropped out, or the guard passes, node 1 is left, and it is not just half of an even number
      of parties that dropped out. */
  predicate Bearable<T>(d: Demo<T>) {
    d.dropped == {} || (|d.dropped| < Threshold(d.c.n) && 1 !in d.dropped
                        && !(d.c.n % 2 == 0 && |d.dropped| == d.c.n / 2))
  }

  lemma {:induction false} SomeSurvivor<T>(d: Demo<T>) returns (b: nat)
    requires (forall i | i in d.dropped :: 1 <= i <= d.c.n) && |d.dropped| < d.c.n
    ensures 1 <= b <= d.c.n && b !in d.dropped
  {
    LiveCount(1, d.c.n, d.dropped);
    LiveIdsAre(1, d.c.n, d.dropped);
    b := LiveIds(1, d.c.n, d.dropped)[0];
    assert b in LiveIds(1, d.c.n, d.dropped);
  }

  /** Dropouts that the guard lets pass but that cannot be borne leave some survivor waiting for ever,
      in every interleaving. */
  lemma {:induction false} Unbearable<T>(d: Demo<T>, entry: Cell -> Val<T>, who: seq<nat>) returns (b: nat)
    requires Sound(d.c) && (forall i | i in d.dropped :: 1 <= i <= d.c.n) && GuardPasses(d) && !Bearable(d)
    requires CanRun(Start(d.c.n, Program(d), AtStart()), who)
    ensures 1 <= b <= d.c.n && b !in d.dropped && !Through(Run(Start(d.c.n, Program(d), AtStart()), who), b)
  {
    hide Program, Run, CanRun, Through, AtStart;
    b := 1;
    if 1 in d.dropped {
      b := SomeSurvivor(d);
      LeaderlessStarve(d, entry, b, who);
    } else {
      TooFewStarve(d, entry, who);
    }
  }

  /** There are survivors, all through and with the plaintext of the computed ciphertext under the
      joint secret, whoever dropped out. */
  ghost predicate AllWell<T>(d: Demo<T>, net: Net<Node<T>, Val<T>>) {
    && |d.dropped| < d.c.n
    && forall p: nat | 1 <= p <= d.c.n && p !in d.dropped :: Through(net, p) && EndsWell(d, net.party[p].st)
  }

  ghost predicate AllThrough<T>(d: Demo<T>, net: Net<Node<T>, Val<T>>) {
    forall p: nat | 1 <= p <= d.c.n && p !in d.dropped :: Through(net, p)
  }

  /** Whoever drops out, a run that can go no further has left all survivors with the right plaintext if
      and only if the dropouts can be borne; and when the guard lets them pass and they cannot, not all
      survivors get to the end at all. */
  lemma {:induction false} GuardDecides<T(!new)>(d: Demo<T>, entry: Cell -> Val<T>, who: seq<nat>)
    requires KeyTheorems.Lawful(d.c) && Recovers(d) && ResultOf(d).Ct? && forall i | i in d.dropped :: 1 <= i <= d.c.n
    requires CanRun(Start(d.c.n, Program(d), AtStart()), who)
    ensures var net := Run(Start(d.c.n, Program(d), AtStart()), who);
            Halted(d.c.n, net) ==>
              && (AllWell(d, net) <==> Bearable(d))
              && (GuardPasses(d) ==> (AllThrough(d, net) <==> Bearable(d)))
  {
    hide Program, Run, CanRun, Recovers, Rings.Commutative, Additive, ResultOf, AtStart, EndsWell;
    if Bearable(d) {
      DropoutsEveryRun(d, entry, who);
    } else if GuardPasses(d) {
      var b := Unbearable(d, entry, who);
    } else if |d.dropped| < d.c.n && Halted(d.c.n, Run(Start(d.c.n, Program(d), AtStart()), who)) {
      var b := SomeSurvivor(d);
      Refused(d, entry, b, who);
    }
  }
}

/** The abort loop of the client/server version: each client walks the slots and, when a partial
    decryption is not at the server yet, either polls on or suspects its owner and has it recovered. */
module ServerAborts {
  import opened Rings
  import opened KeyAlgebra
  import Dropouts
  import Recovery

  datatype Service<!T> = Service(n: nat, ring: Ring<T>, secret: nat -> T, ct: Val<T>, share: (nat, nat) -> T,
      recover: map<nat, T> -> T)

  datatype Client<+T> =
    | Computing
    | Collecting(next: nat, slots: map<nat, Val<T>>)
    | Awaiting(next: nat, slots: map<nat, Val<T>>)
    | Done(slots: map<nat, Val<T>>, plaintext: Val<T>)

  /** The two tables of the server (partial decryptions as posted, and as recovered by client 1) and
      the clients. */
  datatype State<+T> = State(posted: map<nat, Val<T>>, recovered: map<nat, Val<T>>, client: map<nat, Client<T>>)

  datatype Step =
    | Post(c: nat)
    | TakeOwn(c: nat)
    | TakePosted(c: nat)
    | Suspect(c: nat)
    | TakeRecovered(c: nat)
    | Fuse(c: nat)

  function Own<T>(v: Service<T>, i: nat): Val<T> { PartialOf(v.ring, v.ct, v.secret, i) }

  /** The shares of client i's secret that the server selects. */
  function Selected<T>(v: Service<T>, i: nat): map<nat, T> {
    map j: nat | j in Recovery.Chosen(1, v.n, i, Dropouts.Threshold(v.n)) :: v.share(i, j)
  }

  function Rebuilt<T>(v: Service<T>, i: nat): Val<T> { DecryptMain(v.ring, v.ct, v.recover(Selected(v, i))) }

  predicate Enabled<T>(v: Service<T>, s: State<T>, step: Step) {
    step.c in s.client &&
    var k := s.client[step.c];
    match step
    case Post(c) => k.Computing?
    case TakeOwn(c) => k.Collecting? && k.next == c
    case TakePosted(c) => k.Collecting? && k.next != c && k.next in s.posted
    case Suspect(c) => k.Collecting? && k.next != c && 1 <= k.next <= v.n && k.next !in s.posted
    case TakeRecovered(c) => k.Awaiting? && k.next in s.recovered
    case Fuse(c) => k.Collecting? && k.next == v.n + 1
  }

  function After<T>(v: Service<T>, s: State<T>, step: Step): State<T>
    requires Enabled(v, s, step)
  {
    var k := s.client[step.c];
    match step
    case Post(c) => State(s.posted[c := Own(v, c)], s.recovered, s.client[c := Collecting(1, map[])])
    case TakeOwn(c) => s.(client := s.client[c := Collecting(k.next + 1, k.slots[k.next := Own(v, c)])])
    case TakePosted(c) => s.(client := s.client[c := Collecting(k.next + 1, k.slots[k.next := s.posted[k.next]])])
    case Suspect(c) =>
      if c == 1
      then State(s.posted, s.recovered[k.next := Rebuilt(v, k.next)], s.client[c := Collecting(k.next + 1,
          k.slots[k.next := Rebuilt(v, k.next)])])
      else s.(client := s.client[c := Awaiting(k.next, k.slots)])
    case TakeRecovered(c) => s.(client := s.client[c := Collecting(k.next + 1, k.slots[k.next := s.recovered[k.next]])])
    case Fuse(c) => s.(client := s.client[c := Done(k.slots, Fusion(v.ring, k.slots, v.n))])
  }

  function Idle<T>(c: nat): Client<T> { Computing }
  function Begin<T>(v: Service<T>): State<T> { State(map[], map[], map c: nat | 1 <= c <= v.n :: Idle(c)) }

  predicate CanRun<T>(v: Service<T>, s: State<T>, steps: seq<Step>)
    decreases |steps|
  {
    |steps| == 0 || (Enabled(v, s, steps[0]) && CanRun(v, After(v, s, steps[0]), steps[1..]))
  }

  function Run<T>(v: Service<T>, s: State<T>, steps: seq<Step>): State<T>
    requires CanRun(v, s, steps)
    decreases |steps|
  {
    if |steps| == 0 then s else Run(v, After(v, s, steps[0]), steps[1..])
  }

  // ---- what the tables and the slots hold ----

  /** The selected shares of every client but the first, whose recovery nobody makes, give its secret back. */
  ghost predicate SelectionRecovers<T>(v: Service<T>) {
    forall i: nat | 1 < i <= v.n :: v.recover(Selected(v, i)) == v.secret(i)
  }

  ghost predicate Filled<T>(v: Service<T>, slots: map<nat, Val<T>>, upto: nat) {
    (forall i: nat :: i in slots <==> 1 <= i < upto) && forall i | i in slots :: slots[i] == Own(v, i)
  }

  ghost predicate ClientOk<T>(v: Service<T>, k: Client<T>) {
    match k
    case Computing => true
    case Collecting(next, slots) => 1 <= next <= v.n + 1 && Filled(v, slots, next)
    case Awaiting(next, slots) => 1 <= next <= v.n && Filled(v, slots, next)
    case Done(slots, plaintext) => Filled(v, slots, v.n + 1) && plaintext == Fusion(v.ring, slots, v.n)
  }

  /** Client 1 never asks for its own recovery, so slot 1 can only be its leading share. */
  ghost predicate Holds<T>(v: Service<T>, s: State<T>) {
    && (forall c: nat :: c in s.client <==> 1 <= c <= v.n)
    && (forall c | c in s.client :: ClientOk(v, s.client[c]))
    && (forall i | i in s.posted :: 1 <= i <= v.n && s.posted[i] == Own(v, i))
    && (forall i | i in s.recovered :: 1 < i <= v.n && s.recovered[i] == Own(v, i))
    && (1 in s.client ==> !s.client[1].Awaiting?)
    && (1 in s.client && s.client[1] != Computing ==> 1 in s.posted)
  }

  lemma {:induction false} NextFilled<T>(v: Service<T>, slots: map<nat, Val<T>>, i: nat)
    requires 1 <= i && Filled(v, slots, i)
    ensures Filled(v, slots[i := Own(v, i)], i + 1)
  {}

  lemma {:induction false} StepHolds<T>(v: Service<T>, s: State<T>, step: Step)
    requires Holds(v, s) && Enabled(v, s, step) && (SelectionRecovers(v) || step != Suspect(1))
    ensures Holds(v, After(v, s, step))
  {
    hide Own, Filled, Selected;
    var k := s.client[step.c];
    assert ClientOk(v, k);
    if (k.Collecting? || k.Awaiting?) { NextFilled(v, k.slots, k.next); }
    match step
    case Post(c) =>
      assert Filled<T>(v, map[], 1) by { EmptyFilled(v); }
    case TakeOwn(c) =>
    case TakePosted(c) =>
    case Suspect(c) =>
      if c == 1 { RebuiltIs(v, k.next); }
    case TakeRecovered(c) =>
    case Fuse(c) =>
  }

  lemma {:induction false} EmptyFilled<T>(v: Service<T>)
    ensures Filled<T>(v, map[], 1)
  {}

  lemma {:induction false} RebuiltIs<T>(v: Service<T>, i: nat)
    requires SelectionRecovers(v) && 1 < i <= v.n
    ensures Rebuilt(v, i) == Own(v, i)
  {}

  lemma {:induction false} RunHolds<T>(v: Service<T>, s: State<T>, steps: seq<Step>)
    requires Holds(v, s) && CanRun(v, s, steps) && (SelectionRecovers(v) || Suspect(1) !in steps)
    ensures Holds(v, Run(v, s, steps))
    decreases |steps|
  {
    hide Holds, SelectionRecovers, Enabled, After;
    if |steps| != 0 {
      StepHolds(v, s, steps[0]);
      RunHolds(v, After(v, s, steps[0]), steps[1..]);
    }
  }

  /** The selection holds enough true shares when there are at least three clients. */
  lemma {:induction false} EnoughSelected<T>(v: Service<T>, i: nat)
    requires 3 <= v.n && 1 <= i <= v.n
    ensures |Selected(v, i)| == Dropouts.Threshold(v.n)
    ensures forall j: nat | j in Selected(v, i) :: 1 <= j <= v.n && j != i && Selected(v, i)[j] == v.share(i, j)
  {
    Recovery.SelectionSize(v.n, i);
    Dropouts.DistinctSize(Recovery.Chosen(1, v.n, i, Dropouts.Threshold(v.n)), Selected(v, i).Keys);
  }

  ghost predicate TrueSharesOf<T>(v: Service<T>, i: nat, m: map<nat, T>) {
    forall j: nat | j in m :: 1 <= j <= v.n && m[j] == v.share(i, j)
  }

  /** True shares in sufficient number give the secret back. */
  ghost predicate SharesRecover<T(!new)>(v: Service<T>) {
    forall i: nat, m | 1 <= i <= v.n && TrueSharesOf(v, i, m) && |m| >= Dropouts.Threshold(v.n) ::
      v.recover(m) == v.secret(i)
  }

  /** From three clients on the selected shares are worth the secret. */
  lemma {:induction false} SelectionIsEnough<T(!new)>(v: Service<T>)
    requires 3 <= v.n && SharesRecover(v)
    ensures SelectionRecovers(v)
  {
    hide Selected;
    forall i: nat | 1 < i <= v.n ensures v.recover(Selected(v, i)) == v.secret(i) {
      EnoughSelected(v, i);
      assert TrueSharesOf(v, i, Selected(v, i));
    }
  }

  /** Whatever mixture of posted and recovered partial decryptions the clients' timeouts lead to, every
      client that finishes has each party's own partial decryption in that party's slot, the leading
      one of client 1 in slot 1, and fuses the same plaintext. This holds as long as client 1 suspects
      nobody, or the shares the server selects are worth the secret. */
  lemma {:induction false} EveryClientAgrees<T(!new)>(v: Service<T>, steps: seq<Step>, c: nat)
    requires SelectionRecovers(v) || Suspect(1) !in steps
    requires Commutative(v.ring) && v.ct.Ct? && CanRun(v, Begin(v), steps)
    ensures var s := Run(v, Begin(v), steps);
            && 1 !in s.recovered
            && (c in s.client && s.client[c].Done? ==>
                  && (forall i: nat :: i in s.client[c].slots <==> 1 <= i <= v.n)
                  && (forall i: nat | 1 <= i <= v.n :: s.client[c].slots[i] == Own(v, i))
                  && s.client[c].plaintext == DecryptLead(v.ring, v.ct, SumTo(v.ring, v.secret, v.n)))
  {
    hide Commutative, Run, CanRun, Fusion, Selected, Own, SelectionRecovers;
    RunHolds(v, Begin(v), steps);
    var s := Run(v, Begin(v), steps);
    if c in s.client && s.client[c].Done? {
      assert ClientOk(v, s.client[c]);
      Fused(v, s.client[c].slots);
    }
  }

  lemma {:induction false} Fused<T(!new)>(v: Service<T>, slots: map<nat, Val<T>>)
    requires 1 <= v.n && Commutative(v.ring) && v.ct.Ct? && Filled(v, slots, v.n + 1)
    ensures Fusion(v.ring, slots, v.n) == DecryptLead(v.ring, v.ct, SumTo(v.ring, v.secret, v.n))
  {
    hide Commutative, Fusion, SumTo;
    FusionIs(v.ring, slots, v.ct, v.secret, v.n);
  }

  // ---- a suspicion that client 1 does not share ----

  /** What is true of every reachable state whatever the shares are worth. */
  ghost predicate Shaped<T>(v: Service<T>, s: State<T>) {
    && (forall c: nat :: c in s.client <==> 1 <= c <= v.n)
    && (forall c | c in s.client && s.client[c].Collecting? :: 1 <= s.client[c].next <= v.n + 1)
    && (forall c | c in s.client && s.client[c].Awaiting? :: 1 <= s.client[c].next <= v.n && c != 1)
    && (forall i | i in s.posted :: 1 <= i <= v.n) && 1 !in s.recovered
  }

  lemma {:induction false} StepShaped<T>(v: Service<T>, s: State<T>, step: Step)
    requires Shaped(v, s) && Enabled(v, s, step)
    ensures Shaped(v, After(v, s, step))
  {
    hide Rebuilt, Own, Fusion;
  }

  lemma {:induction false} RunShaped<T>(v: Service<T>, s: State<T>, steps: seq<Step>)
    requires Shaped(v, s) && CanRun(v, s, steps)
    ensures Shaped(v, Run(v, s, steps))
    decreases |steps|
  {
    hide Shaped, Enabled, After;
    if |steps| != 0 {
      StepShaped(v, s, steps[0]);
      RunShaped(v, After(v, s, steps[0]), steps[1..]);
    }
  }

  /** Client 1 has already filled slot i. */
  predicate Passed<T>(s: State<T>, i: nat) {
    1 in s.client && (s.client[1].Done? || (s.client[1].Collecting? && i < s.client[1].next))
  }

  /** Client 1 has recovered i, or will have to if it goes on before i posts. */
  predicate Obtainable<T>(s: State<T>, i: nat) {
    i in s.recovered || (i != 1 && i !in s.posted && !Passed(s, i))
  }

  /** Client c waits for a recovery of i that client 1 has not made and has no reason to make. */
  predicate WaitsInVain<T>(s: State<T>, c: nat, i: nat) {
    c in s.client && s.client[c].Awaiting? && s.client[c].next == i && !Obtainable(s, i)
  }

  lemma {:induction false} StepInVain<T>(v: Service<T>, s: State<T>, step: Step, c: nat, i: nat)
    requires Shaped(v, s) && WaitsInVain(s, c, i) && Enabled(v, s, step)
    ensures WaitsInVain(After(v, s, step), c, i)
  {
    hide Rebuilt, Own, Fusion;
  }

  /** What client 1 does next on its way to slot i. */
  function NextOfOne<T>(s: State<T>): Step
    requires 1 in s.client
  {
    var k := s.client[1];
    if k.Collecting? && k.next == 1 then TakeOwn(1)
    else if k.Collecting? && k.next in s.posted then TakePosted(1)
    else if k.Collecting? then Suspect(1)
    else Post(1)
  }

  function Distance<T>(s: State<T>, i: nat): nat
    requires 1 in s.client
  {
    var k := s.client[1];
    if k.Collecting? then (if k.next <= i then i + 1 - k.next else 0) else i + 1
  }

  lemma {:induction false} OneApproaches<T>(v: Service<T>, s: State<T>, c: nat, i: nat)
    requires Shaped(v, s) && c in s.client && s.client[c].Awaiting? && s.client[c].next == i
    requires i !in s.recovered && Obtainable(s, i) && 1 in s.client
    ensures var step := NextOfOne(s);
            && Enabled(v, s, step) && 1 in After(v, s, step).client
            && After(v, s, step).client[c] == s.client[c] && Obtainable(After(v, s, step), i)
            && (i in After(v, s, step).recovered || Distance(After(v, s, step), i) < Distance(s, i))
  {
    hide Rebuilt, Own, Fusion;
  }

  /** The continuation that frees c: client 1 goes on as far as slot i. */
  lemma {:induction false} Freeing<T>(v: Service<T>, s: State<T>, c: nat, i: nat) returns (more: seq<Step>)
    requires Shaped(v, s) && c in s.client && s.client[c].Awaiting? && s.client[c].next == i && Obtainable(s, i)
    ensures Frees(v, s, more, c)
    decreases if i in s.recovered then 0 else if 1 in s.client then Distance(s, i) + 1 else 0
  {
    hide Rebuilt, Own, Fusion, Shaped;
    if i in s.recovered {
      more := [TakeRecovered(c)] + [];
      OneMore(v, s, TakeRecovered(c), []);
    } else {
      assert 1 in s.client by { OneThere(v, s, c); }
      hide Obtainable, Enabled, After, NextOfOne, Distance;
      var step := NextOfOne(s);
      OneApproaches(v, s, c, i);
      StepShaped(v, s, step);
      var rest := Freeing(v, After(v, s, step), c, i);
      OneMore(v, s, step, rest);
      more := [step] + rest;
    }
  }

  lemma {:induction false} OneThere<T>(v: Service<T>, s: State<T>, c: nat)
    requires Shaped(v, s) && c in s.client
    ensures 1 in s.client
  {}

  /** Running `more` gets client c on. */
  predicate Frees<T(==)>(v: Service<T>, s: State<T>, more: seq<Step>, c: nat) {
    && c in s.client && CanRun(v, s, more) && c in Run(v, s, more).client
    && Run(v, s, more).client[c] != s.client[c]
  }

  /** In every reachable state a client that has suspected i and now awaits its recovery can get on if
      and only if client 1 has recovered i, or i is another client than 1, has not posted, and client 1
      has not passed its slot. */
  lemma {:induction false} AwaitingFreedIff<T>(v: Service<T>, before: seq<Step>, c: nat)
    requires CanRun(v, Begin(v), before)
    ensures var s := Run(v, Begin(v), before);
            c in s.client && s.client[c].Awaiting? ==>
              ((exists more :: Frees(v, s, more, c)) <==> Obtainable(s, s.client[c].next))
  {
    hide Run, Obtainable;
    RunShaped(v, Begin(v), before);
    var s := Run(v, Begin(v), before);
    if c in s.client && s.client[c].Awaiting? {
      var i := s.client[c].next;
      if Obtainable(s, i) {
        var more := Freeing(v, s, c, i);
      } else {
        forall more ensures !Frees(v, s, more, c) {
          if CanRun(v, s, more) { StaysAwaiting(v, s, more, c, i); }
        }
      }
    }
  }

  /** A client that waits in vain waits for ever, even if client i was only slow and posts its share
      after all. */
  lemma {:induction false} StaysAwaiting<T>(v: Service<T>, s: State<T>, more: seq<Step>, c: nat, i: nat)
    requires Shaped(v, s) && WaitsInVain(s, c, i) && CanRun(v, s, more)
    ensures !Frees(v, s, more, c)
    decreases |more|
  {
    hide Shaped, WaitsInVain, Enabled, After;
    if |more| != 0 {
      SameAwaiting(v, s, more[0], c, i);
      StepInVain(v, s, more[0], c, i);
      StepShaped(v, s, more[0]);
      StaysAwaiting(v, After(v, s, more[0]), more[1..], c, i);
    }
  }

  lemma {:induction false} SameAwaiting<T>(v: Service<T>, s: State<T>, step: Step, c: nat, i: nat)
    requires Shaped(v, s) && WaitsInVain(s, c, i) && Enabled(v, s, step)
    ensures c in s.client && c in After(v, s, step).client && After(v, s, step).client[c] == s.client[c]
  {}

  lemma {:induction false} OneMore<T>(v: Service<T>, s: State<T>, step: Step, rest: seq<Step>)
    requires Enabled(v, s, step) && CanRun(v, After(v, s, step), rest)
    ensures CanRun(v, s, [step] + rest) && Run(v, s, [step] + rest) == Run(v, After(v, s, step), rest)
  {
    assert ([step] + rest)[1..] == rest;
  }

  /** Client 2 has suspected client 3, which posts now; client 1 still has everything to collect. */
  lemma {:induction false} ThenStranded<T>(v: Service<T>, s: State<T>) returns (steps: seq<Step>)
    requires v.n == 3 && 1 in s.client && 2 in s.client && 3 in s.client && s.recovered == map[] && 2 in s.posted
    requires s.client[1] == Collecting(1, map[]) && s.client[3] == Computing && s.client[2].Awaiting?
             && s.client[2].next == 3
    ensures CanRun(v, s, steps) && WaitsInVain(Run(v, s, steps), 2, 3) && 3 in Run(v, s, steps).posted
  {
    hide Own;
    var s1 := After(v, s, Post(3));
    var s2 := After(v, s1, TakeOwn(1));
    var s3 := After(v, s2, TakePosted(1));
    steps := [TakePosted(1)] + [];
    OneMore(v, s3, TakePosted(1), []);
    OneMore(v, s2, TakePosted(1), steps);
    steps := [TakePosted(1)] + steps;
    OneMore(v, s1, TakeOwn(1), steps);
    steps := [TakeOwn(1)] + steps;
    OneMore(v, s, Post(3), steps);
    steps := [Post(3)] + steps;
  }

  lemma {:induction false} ThreeStrand<T>(v: Service<T>) returns (steps: seq<Step>)
    requires v.n == 3
    ensures CanRun(v, Begin(v), steps) && WaitsInVain(Run(v, Begin(v), steps), 2, 3)
             && 3 in Run(v, Begin(v), steps).posted
  {
    hide Own, WaitsInVain;
    var s1 := After(v, Begin(v), Post(1));
    var s2 := After(v, s1, Post(2));
    var s3 := After(v, s2, TakePosted(2));
    var s4 := After(v, s3, TakeOwn(2));
    var s5 := After(v, s4, Suspect(2));
    steps := ThenStranded(v, s5);
    OneMore(v, s4, Suspect(2), steps);
    steps := [Suspect(2)] + steps;
    OneMore(v, s3, TakeOwn(2), steps);
    steps := [TakeOwn(2)] + steps;
    OneMore(v, s2, TakePosted(2), steps);
    steps := [TakePosted(2)] + steps;
    OneMore(v, s1, Post(2), steps);
    steps := [Post(2)] + steps;
    OneMore(v, Begin(v), Post(1), steps);
    steps := [Post(1)] + steps;
  }

  /** It happens: client 3 is slow, client 2 suspects it, client 1 does not, and whatever happens then
      client 2 does not get on. */
  lemma {:induction false} SlowClientStrandsAnother<T>(v: Service<T>) returns (steps: seq<Step>)
    requires v.n == 3
    ensures CanRun(v, Begin(v), steps)
    ensures var s := Run(v, Begin(v), steps);
            && 2 in s.client && s.client[2].Awaiting? && s.client[2].next == 3 && 3 in s.posted
            && forall more :: !Frees(v, s, more, 2)
  {
    hide Run, CanRun, Shaped;
    steps := ThreeStrand(v);
    var s := Run(v, Begin(v), steps);
    assert Shaped(v, Begin(v)) by { BeginShaped(v); }
    RunShaped(v, Begin(v), steps);
    forall more ensures !Frees(v, s, more, 2) {
      if CanRun(v, s, more) { StaysAwaiting(v, s, more, 2, 3); }
    }
  }

  lemma {:induction false} BeginShaped<T>(v: Service<T>)
    ensures Shaped(v, Begin(v))
  {}

  // ---- only who has not posted is suspected ----

  predicate Awaits<T>(s: State<T>, c: nat, i: nat) { c in s.client && s.client[c].Awaiting? && s.client[c].next == i }

  lemma {:induction false} RunMore<T>(v: Service<T>, s: State<T>, steps: seq<Step>, step: Step)
    requires CanRun(v, s, steps + [step])
    ensures CanRun(v, s, steps) && Enabled(v, Run(v, s, steps), step)
    ensures Run(v, s, steps + [step]) == After(v, Run(v, s, steps), step)
    decreases |steps|
  {
    var all := steps + [step];
    if |steps| == 0 {
      assert all == [step] && all[1..] == [];
    } else {
      assert all[0] == steps[0] && all[1..] == steps[1..] + [step];
      RunMore(v, After(v, s, steps[0]), steps[1..], step);
    }
  }

  /** Whoever begins to await i does so as another client than 1 and than i, while i has not posted; and
      what is recovered for i is so first while i has not posted. */
  lemma {:induction false} SuspectedBeforePosting<T>(v: Service<T>, steps: seq<Step>, step: Step, c: nat, i: nat)
    requires CanRun(v, Begin(v), steps + [step]) && CanRun(v, Begin(v), steps)
    ensures var before, after := Run(v, Begin(v), steps), Run(v, Begin(v), steps + [step]);
            && (Awaits(after, c, i) && !Awaits(before, c, i) ==> i !in before.posted && c != 1 && c != i)
            && (i in after.recovered && i !in before.recovered ==> i !in before.posted && i != 1)
  {
    hide Run, CanRun, Rebuilt, Own, Fusion, Shaped;
    RunMore(v, Begin(v), steps, step);
    assert Shaped(v, Begin(v)) by { BeginShaped(v); }
    RunShaped(v, Begin(v), steps);
  }

  /** Everybody has posted, and nobody awaits a recovery. */
  ghost predicate AllThere<T>(v: Service<T>, s: State<T>) {
    && (forall c: nat | 1 <= c <= v.n :: c in s.posted)
    && forall c | c in s.client :: !s.client[c].Awaiting? && !s.client[c].Computing?
  }

  lemma {:induction false} StepAllThere<T>(v: Service<T>, s: State<T>, step: Step)
    requires Shaped(v, s) && AllThere(v, s) && Enabled(v, s, step)
    ensures AllThere(v, After(v, s, step))
  {
    hide Rebuilt, Own, Fusion;
  }

  lemma {:induction false} RunAllThere<T>(v: Service<T>, s: State<T>, more: seq<Step>)
    requires Shaped(v, s) && AllThere(v, s) && CanRun(v, s, more)
    ensures AllThere(v, Run(v, s, more)) && Shaped(v, Run(v, s, more))
    decreases |more|
  {
    hide Shaped, AllThere, Enabled, After;
    if |more| != 0 {
      StepAllThere(v, s, more[0]);
      StepShaped(v, s, more[0]);
      RunAllThere(v, After(v, s, more[0]), more[1..]);
    }
  }

  /** Once everybody has posted and nobody awaits a recovery, nobody ever will, whatever the timeouts, and
      a continuation after which no step is possible has taken every client to its end. */
  lemma {:induction false} AllPostedAllDone<T>(v: Service<T>, steps: seq<Step>, more: seq<Step>)
    requires CanRun(v, Begin(v), steps) && CanRun(v, Run(v, Begin(v), steps), more)
    requires forall c: nat | 1 <= c <= v.n :: c in Run(v, Begin(v), steps).posted
    requires forall c, i: nat :: !Awaits(Run(v, Begin(v), steps), c, i)
    ensures var end := Run(v, Run(v, Begin(v), steps), more);
            && (forall c, i: nat :: !Awaits(end, c, i))
            && ((forall step :: !CanRun(v, end, [step])) ==>
                  forall c: nat | 1 <= c <= v.n :: c in end.client && end.client[c].Done?)
  {
    hide Run, CanRun, Shaped, Enabled, After, Rebuilt, Own, Fusion;
    var s := Run(v, Begin(v), steps);
    assert Shaped(v, Begin(v)) by { BeginShaped(v); }
    RunShaped(v, Begin(v), steps);
    RunPosted(v, Begin(v), steps);
    assert AllThere(v, s) by { NobodyComputes(v, s); }
    RunAllThere(v, s, more);
    var end := Run(v, s, more);
    if forall step :: !CanRun(v, end, [step]) {
      forall step ensures !Enabled(v, end, step) { OneStep(v, end, step); }
      forall c: nat | 1 <= c <= v.n ensures c in end.client && end.client[c].Done? { StuckIsDone(v, end, c); }
    }
  }

  lemma {:induction false} OneStep<T>(v: Service<T>, s: State<T>, step: Step)
    ensures CanRun(v, s, [step]) <==> Enabled(v, s, step)
  {
    assert [step][1..] == [];
  }

  /** Who has posted is no longer computing. */
  ghost predicate PostedGoOn<T>(s: State<T>) { forall c | c in s.client && c in s.posted :: !s.client[c].Computing? }

  lemma {:induction false} RunPosted<T>(v: Service<T>, s: State<T>, steps: seq<Step>)
    requires PostedGoOn(s) && CanRun(v, s, steps)
    ensures PostedGoOn(Run(v, s, steps))
    decreases |steps|
  {
    hide Rebuilt, Own, Fusion;
    if |steps| != 0 {
      assert PostedGoOn(After(v, s, steps[0]));
      RunPosted(v, After(v, s, steps[0]), steps[1..]);
    }
  }

  lemma {:induction false} NobodyComputes<T>(v: Service<T>, s: State<T>)
    requires Shaped(v, s) && PostedGoOn(s) && (forall c: nat | 1 <= c <= v.n :: c in s.posted)
    requires forall c, i: nat :: !Awaits(s, c, i)
    ensures AllThere(v, s)
  {
    forall c | c in s.client && s.client[c].Awaiting? ensures false { assert Awaits(s, c, s.client[c].next); }
  }

  lemma {:induction false} StuckIsDone<T>(v: Service<T>, s: State<T>, c: nat)
    requires Shaped(v, s) && AllThere(v, s) && 1 <= c <= v.n && forall step: Step :: !Enabled(v, s, step)
    ensures c in s.client && s.client[c].Done?
  {
    assert !Enabled(v, s, TakeOwn(c)) && !Enabled(v, s, TakePosted(c)) && !Enabled(v, s, Fuse(c));
  }
}

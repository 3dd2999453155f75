/** The clients of the client/server version from their keys to the plaintext: each goes on to the abort
    loop as soon as it has evaluated, while others may still be anywhere in the program before. */
module ClientRuns {
  import opened KeyAlgebra
  import opened Network
  import opened JointKeys
  import opened KeyTheorems
  import opened Dropouts
  import opened DropoutRuns
  import opened ServerRuns
  import opened ShamirDemo
  import Rings
  import TwoClients
  import Aborts = ServerAborts

  /** The clients' programs up to the partial decryption with the tables these post to, and the abort
      loops with theirs. */
  datatype World<!T> = World(net: Net<Node<T>, Val<T>>, loop: Aborts.State<T>)

  datatype Move = Advance(p: nat) | Loop(step: Aborts.Step)

  /** Client c's loop works on the ciphertext it has evaluated itself. */
  function SeenBy<T>(d: Demo<T>, net: Net<Node<T>, Val<T>>, c: nat): Aborts.Service<T>
    requires c in net.party
  {
    ServiceOf(d, net.party[c].st.result)
  }

  /** The shares client 1 asks the server for are in the server's table. */
  predicate Answered<T(==)>(w: World<T>, step: Aborts.Step) {
    step == Aborts.Suspect(1) && 1 in w.loop.client && w.loop.client[1].Collecting? ==>
      Cell(SecretShares, w.loop.client[1].next) in w.net.table
  }

  /** A client reaches the loop after its last statement, unless it drops out before that. */
  predicate Enabled<T(==)>(d: Demo<T>, w: World<T>, m: Move) {
    match m
    case Advance(p) => p in w.net.party && !Waits(w.net, p)
    case Loop(step) =>
      && step.c in w.net.party && |w.net.party[step.c].code| == 0 && step.c !in d.dropped
      && Aborts.Enabled(SeenBy(d, w.net, step.c), w.loop, step) && Answered(w, step)
  }

  function Next<T(==)>(d: Demo<T>, w: World<T>, m: Move): World<T>
    requires Enabled(d, w, m)
  {
    match m
    case Advance(p) => w.(net := After(w.net, p))
    case Loop(step) => w.(loop := Aborts.After(SeenBy(d, w.net, step.c), w.loop, step))
  }

  predicate Possible<T(==)>(d: Demo<T>, w: World<T>, moves: seq<Move>)
    decreases |moves|
  {
    |moves| == 0 || (Enabled(d, w, moves[0]) && Possible(d, Next(d, w, moves[0]), moves[1..]))
  }

  function Reached<T(==)>(d: Demo<T>, w: World<T>, moves: seq<Move>): World<T>
    requires Possible(d, w, moves)
    decreases |moves|
  {
    if |moves| == 0 then w else Reached(d, Next(d, w, moves[0]), moves[1..])
  }

  function Outset<T(==)>(d: Demo<T>): Net<Node<T>, Val<T>> { Start(d.c.n, ClientProgram(d), AtStart()) }
  /** What the loops work on when every client has evaluated the same. */
  function Common<T(==)>(d: Demo<T>): Aborts.Service<T> { ServiceOf(d, ResultOf(d)) }
  function Beginning<T(==)>(d: Demo<T>): World<T> { World(Outset(d), Aborts.Begin(Common(d))) }

  function Advances(moves: seq<Move>): seq<nat> {
    if |moves| == 0 then []
    else (if moves[0].Advance? then [moves[0].p] else []) + Advances(moves[1..])
  }
  function Steps(moves: seq<Move>): (steps: seq<Aborts.Step>)
    ensures forall step :: step in steps <==> Loop(step) in moves
  {
    if |moves| == 0 then []
    else (if moves[0].Loop? then [moves[0].step] else []) + Steps(moves[1..])
  }

  // ---- the two halves of a run ----

  lemma {:induction false} OneMore<L, V>(net: Net<L, V>, who: seq<nat>, p: nat)
    requires CanRun(net, who) && p in Run(net, who).party && !Waits(Run(net, who), p)
    ensures CanRun(net, who + [p]) && Run(net, who + [p]) == After(Run(net, who), p)
    decreases |who|
  {
    if |who| == 0 {
      assert who + [p] == [p] && [p][1..] == [];
    } else {
      OneMore(After(net, who[0]), who[1..], p);
      assert (who + [p])[1..] == who[1..] + [p];
    }
  }

  /** Every run of the whole is a run of the programs and a run of the abort loop on the ciphertext
      that all parties' ciphertexts evaluate to. */
  lemma {:induction false} Halves<T(!new)>(d: Demo<T>, w: World<T>, before: seq<nat>, moves: seq<Move>)
    requires Lawful(d.c) && CanRun(Outset(d), before) && w.net == Run(Outset(d), before) && Possible(d, w, moves)
    ensures var end := Reached(d, w, moves);
            && CanRun(Outset(d), before + Advances(moves)) && end.net == Run(Outset(d), before + Advances(moves))
            && Aborts.CanRun(Common(d), w.loop, Steps(moves))
            && end.loop == Aborts.Run(Common(d), w.loop, Steps(moves))
    decreases |moves|
  {
    hide Outset, Common, Run, CanRun, Lawful, Enabled, Next, Advances, Steps, Aborts.CanRun, Aborts.Run;
    FirstOf(moves);
    if |moves| == 0 {
      assert before + Advances(moves) == before;
      NoStep(d, w.loop);
    } else {
      var next, rest := Next(d, w, moves[0]), moves[1..];
      match moves[0] {
        case Advance(p) =>
          AdvanceIs(d, w, p);
          OneMore(Outset(d), before, p);
          Halves(d, next, before + [p], rest);
          assert before + [p] + Advances(rest) == before + Advances(moves);
        case Loop(step) =>
          LoopIs(d, w, before, step);
          Halves(d, next, before, rest);
          Aborts.OneMore(Common(d), w.loop, step, Steps(rest));
      }
    }
  }

  lemma {:induction false} FirstOf(moves: seq<Move>)
    ensures if |moves| == 0 then Advances(moves) == [] && Steps(moves) == []
            else match moves[0]
              case Advance(p) => Advances(moves) == [p] + Advances(moves[1..]) && Steps(moves) == Steps(moves[1..])
              case Loop(step) => Advances(moves) == Advances(moves[1..]) && Steps(moves) == [step] + Steps(moves[1..])
  {}

  lemma {:induction false} NoStep<T>(d: Demo<T>, s: Aborts.State<T>)
    ensures Aborts.CanRun(Common(d), s, []) && Aborts.Run(Common(d), s, []) == s
  {}

  lemma {:induction false} AdvanceIs<T>(d: Demo<T>, w: World<T>, p: nat)
    requires Enabled(d, w, Advance(p))
    ensures p in w.net.party && !Waits(w.net, p)
    ensures Next(d, w, Advance(p)).net == After(w.net, p) && Next(d, w, Advance(p)).loop == w.loop
  {}

  /** A round of a loop is one on the common ciphertext. */
  lemma {:induction false} LoopIs<T(!new)>(d: Demo<T>, w: World<T>, before: seq<nat>, step: Aborts.Step)
    requires Lawful(d.c) && CanRun(Outset(d), before) && w.net == Run(Outset(d), before)
    requires Enabled(d, w, Loop(step))
    ensures Next(d, w, Loop(step)).net == w.net
    ensures Aborts.Enabled(Common(d), w.loop, step)
            && Next(d, w, Loop(step)).loop == Aborts.After(Common(d), w.loop, step)
  {
    hide Outset, Common, Run, CanRun, Lawful, Aborts.Enabled, Aborts.After, SeenBy;
    SeesTheSame(d, before, step.c);
  }

  lemma {:induction false} SeesTheSame<T(!new)>(d: Demo<T>, before: seq<nat>, c: nat)
    requires Lawful(d.c) && CanRun(Outset(d), before)
    ensures var net := Run(Outset(d), before);
            c in net.party && |net.party[c].code| == 0 && c !in d.dropped ==>
              SeenBy(d, net, c) == Common(d) && net.party[c].st.partial == Aborts.Own(Common(d), c)
  {
    hide ClientProgram, AtStart, Run, CanRun, ResultOf, Lawful, PartialOf;
    ClientsEveryRun(d, before);
    if c in Run(Outset(d), before).party && c !in d.dropped { ClientReady(d, before, c); }
  }

  lemma {:induction false} BothHalves<T(!new)>(d: Demo<T>, moves: seq<Move>)
    requires Lawful(d.c) && Possible(d, Beginning(d), moves)
    ensures var end := Reached(d, Beginning(d), moves); var start := Aborts.Begin(Common(d));
            && CanRun(Outset(d), Advances(moves)) && end.net == Run(Outset(d), Advances(moves))
            && Aborts.CanRun(Common(d), start, Steps(moves)) && end.loop == Aborts.Run(Common(d), start, Steps(moves))
  {
    hide Outset, Common, Lawful, Possible, Reached, Advances, Steps, Aborts.Begin, Aborts.CanRun, Aborts.Run;
    Halves(d, Beginning(d), [], moves);
    assert [] + Advances(moves) == Advances(moves);
  }

  // ---- whole runs ----

  /** From the keys to the plaintext, in whatever order the clients' statements and the rounds of their
      loops come, whoever drops out before posting its partial decryption, and whatever their timeouts
      make them suspect: the programs never get stuck, and every client that finishes has each party's
      own partial decryption and the plaintext, under the joint secret, of what all ciphertexts evaluate
      to. This holds as long as client 1 suspects nobody or the selected shares are worth the secret. */
  lemma {:induction false} ServerEveryRun<T(!new)>(d: Demo<T>, moves: seq<Move>, c: nat)
    requires Lawful(d.c) && ResultOf(d).Ct? && Possible(d, Beginning(d), moves)
    requires Aborts.SelectionRecovers(Common(d)) || Loop(Aborts.Suspect(1)) !in moves
    ensures var w := Reached(d, Beginning(d), moves); var v := Common(d);
            && GoesWell(d.c.n, Outset(d), w.net, |Advances(moves)|)
            && (c in w.loop.client && w.loop.client[c].Done? ==>
                  && (forall i: nat :: i in w.loop.client[c].slots <==> 1 <= i <= d.c.n)
                  && (forall i: nat | 1 <= i <= d.c.n :: w.loop.client[c].slots[i] == Aborts.Own(v, i))
                  && w.loop.client[c].plaintext == DecryptLead(d.c.ring, ResultOf(d), Joint(d.c)))
  {
    hide ClientProgram, AtStart, Run, CanRun, ResultOf, Rings.Commutative, Additive, Aborts.Own, Aborts.CanRun,
        Aborts.Run, Aborts.SelectionRecovers, Possible, Reached, GoesWell, DecryptLead;
    BothHalves(d, moves);
    ClientsEveryRun(d, Advances(moves));
    Aborts.EveryClientAgrees(Common(d), Steps(moves), c);
  }

  /** The same with Shamir's sharing, and nothing about shares left to assume: from three clients on
      whatever anybody suspects, with two unless client 1 recovers client 2 from polynomials that are not
      constant. */
  lemma {:induction false} ShamirServerEveryRun(d: Demo<Element>, qs: seq<nat>, dealt: nat -> seq<seq<int>>,
      moves: seq<Move>, c: nat)
    requires ShamirSetup(d, qs, dealt) && Possible(d, Beginning(d), moves)
    requires 3 <= d.c.n || Loop(Aborts.Suspect(1)) !in moves || TwoClients.Flat(qs, dealt(2))
    ensures var w := Reached(d, Beginning(d), moves);
            && GoesWell(d.c.n, Outset(d), w.net, |Advances(moves)|)
            && (c in w.loop.client && w.loop.client[c].Done? ==>
                  w.loop.client[c].plaintext == DecryptLead(d.c.ring, ResultOf(d), Joint(d.c)))
  {
    hide Outset, Reached, Possible, Residues, ResultOf, DealsShamir, Recovers, Lawful, DecryptLead, Joint, GoesWell,
        Aborts.SharesRecover, Aborts.SelectionRecovers, Advances;
    ShamirLawful(d, qs, dealt);
    if Loop(Aborts.Suspect(1)) in moves { TwoClients.Worth(d, qs, dealt, ResultOf(d)); }
    ServerEveryRun(d, moves, c);
  }

  /** When no client can make a move any more, each that has not dropped out is done, or is not client 1
      and waits for a recovery that client 1 has not made. */
  lemma {:induction false} WhereItEnds<T(!new)>(d: Demo<T>, moves: seq<Move>, c: nat)
    requires Lawful(d.c) && Possible(d, Beginning(d), moves) && 1 <= c <= d.c.n && c !in d.dropped
    requires forall m :: !Enabled(d, Reached(d, Beginning(d), moves), m)
    ensures var w := Reached(d, Beginning(d), moves);
            && Parties(d.c.n, w.net) && Finished(d.c.n, w.net) && c in w.loop.client
            && (w.loop.client[c].Done? ||
                (c != 1 && w.loop.client[c].Awaiting? && w.loop.client[c].next !in w.loop.recovered))
  {
    hide ClientProgram, AtStart, Run, CanRun, ResultOf, Lawful, Aborts.CanRun, Aborts.Run, Possible, Reached,
        Aborts.Shaped, Finished;
    var w := Reached(d, Beginning(d), moves);
    BothHalves(d, moves);
    ClientsEveryRun(d, Advances(moves));
    forall p: nat | 1 <= p <= d.c.n ensures Waits(w.net, p) { assert !Enabled(d, w, Advance(p)); }
    assert Finished(d.c.n, w.net);
    Aborts.BeginShaped(Common(d));
    Aborts.RunShaped(Common(d), Aborts.Begin(Common(d)), Steps(moves));
    CodeIsGone(d.c.n, w.net, c);
    forall step: Aborts.Step | step.c == c ensures !Aborts.Enabled(SeenBy(d, w.net, c), w.loop, step) {
      if step == Aborts.Suspect(1) && Aborts.Enabled(SeenBy(d, w.net, c), w.loop, step) {
        SharesPosted(d, Advances(moves), 1, w.loop.client[1].next);
      }
      assert Aborts.Enabled(SeenBy(d, w.net, c), w.loop, step) ==> Answered(w, step);
      assert !Enabled(d, w, Loop(step));
    }
    LoopEnds(SeenBy(d, w.net, c), w.loop, c);
  }

  lemma {:induction false} CodeIsGone<L, V>(n: nat, net: Net<L, V>, c: nat)
    requires Parties(n, net) && Finished(n, net) && 1 <= c <= n
    ensures |net.party[c].code| == 0
  {}

  lemma {:induction false} LoopEnds<T>(v: Aborts.Service<T>, s: Aborts.State<T>, c: nat)
    requires Aborts.Shaped(v, s) && 1 <= c <= v.n
    requires forall step: Aborts.Step | step.c == c :: !Aborts.Enabled(v, s, step)
    ensures c in s.client
    ensures s.client[c].Done? || (c != 1 && s.client[c].Awaiting? && s.client[c].next !in s.recovered)
  {
    assert !Aborts.Enabled(v, s, Aborts.Post(c)) && !Aborts.Enabled(v, s, Aborts.TakeOwn(c));
    assert !Aborts.Enabled(v, s, Aborts.TakePosted(c)) && !Aborts.Enabled(v, s, Aborts.Suspect(c));
    assert !Aborts.Enabled(v, s, Aborts.TakeRecovered(c)) && !Aborts.Enabled(v, s, Aborts.Fuse(c));
  }
}

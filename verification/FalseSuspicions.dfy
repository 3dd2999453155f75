/** Parties that are alive but suspected by all others: what everybody ends with, and concrete lists
    for which not all survivors get through. */
module FalseSuspicions {
  import opened KeyAlgebra
  import opened Network
  import opened Phases
  import opened JointKeys
  import opened KeyTheorems
  import opened Dropouts
  import opened DropoutRuns
  import opened Suspicions
  import Rings
  import ShamirDemo

  /** Everybody outside the set lists exactly this set, which leaves enough of them, node 1 included, and
      a survivor inside it takes part in no recovery. */
  ghost predicate Agreed<T>(d: Demo<T>, view: nat -> set<nat>, suspects: set<nat>) {
    && Views(d, view) && 1 !in suspects && (forall i | i in suspects :: 1 <= i <= d.c.n)
    && d.dropped <= suspects && d.c.n - |suspects| >= Threshold(d.c.n)
    && (forall p: nat | 1 <= p <= d.c.n && p !in suspects :: view(p) == suspects)
    && (forall p: nat | 1 <= p <= d.c.n && p in suspects && p !in d.dropped :: Recoveries(d.c.n, view(p)) == 0)
  }

  lemma {:induction false} AgreedIsConsistent<T>(d: Demo<T>, view: nat -> set<nat>, suspects: set<nat>)
    requires Sound(d.c) && Agreed(d, view, suspects)
    ensures Views(d, view) && Consistent(d, view)
    ensures EnoughLeft(d.(dropped := suspects)) && |suspects| < Threshold(d.c.n)
  {
    hide Recoveries;
    assert view(1) == suspects;
    assert 2 * Threshold(d.c.n) > d.c.n;
  }

  /** The same run without the suspects computes the same. */
  lemma {:induction false} SameData<T>(d: Demo<T>, suspects: set<nat>, p: nat)
    ensures var less := d.(dropped := suspects);
            && Result(less) == Result(d) && ResultOf(less) == ResultOf(d) && SharesFor(less, p) == SharesFor(d, p)
            && Upwards(1, d.c.n, suspects, Partials(d)) == AliveSlots(less)
  {
    var less := d.(dropped := suspects);
    assert AllCiphers(less) == AllCiphers(d);
    assert Result(less) == Result(d);
    assert SharesFor(less, p) == SharesFor(d, p);
    assert Upwards(1, d.c.n, suspects, Partials(d)) == AliveSlots(less);
  }

  /** What a survivor holds after the partial decryptions: those of everybody it does not list. */
  lemma {:induction false} HoldsParts<T>(d: Demo<T>, view: nat -> set<nat>, p: nat)
    requires Views(d, view) && 1 <= p <= d.c.n && p !in d.dropped
    ensures var k := AfterParts(d, view)(p);
            && k.slots == Upwards(1, d.c.n, view(p), Partials(d)) && k.result == Result(d)
            && k.recdShares == SharesFor(d, p) && k.recoveryShares == map[] && k.finalPub == PubOf(d.c)(d.c.n)
  {
    hide SharesFor, AllCiphers, JointOpKey, PartialOf, Result, WithKeys, PubOf, Upwards, Stored, Partials;
    var seen := SeenBy(d, view, p);
    KeysReady(d, p);
    assert WithCiphers(d)(p) == WithCipher(d)(p).(ciphers := AllCiphers(d));
    assert WithPartial(d)(p) == WithCiphers(d)(p).(result := Result(d), partial := Partials(d)(p),
        slots := map[p := Partials(d)(p)]);
    SlotsStored(WithPartial(d)(p), 1, d.c.n, {p} + seen.dropped, Partials(d));
    UpwardsWith(p, d.c.n, seen.dropped, Partials(d));
  }

  function Suspects<T>(d: Demo<T>, suspects: set<nat>): seq<nat> { Nacks(1, d.c.n, suspects) }

  /** Where the recoveries of the suspects, and fusing, take everybody. */
  function AfterRecovery<T(==)>(d: Demo<T>, view: nat -> set<nat>, suspects: set<nat>): Nodes<T> {
    AfterAll(d.(dropped := suspects), Suspects(d, suspects), AfterParts(d, view))
  }
  function AgreedPlan<T(==)>(d: Demo<T>, view: nat -> set<nat>, suspects: set<nat>, lo: nat): nat -> Plan<T> {
    var ids := Suspects(d, suspects);
    Then(AllPlan(d.(dropped := suspects), ids, lo), LeavingPlan(d, view, lo + 5 * |ids|))
  }

  lemma {:induction false} AgreedCode<T>(d: Demo<T>, view: nat -> set<nat>, suspects: set<nat>, p: nat)
    requires Sound(d.c) && Agreed(d, view, suspects) && 1 <= p <= d.c.n
    ensures Endings(d, view)(p)
            == Then(RecoverAll(d.(dropped := suspects), Suspects(d, suspects)), Leaving(d, view))(p)
  {
    hide RecoverOne, Leaving, Nacks;
    var seen, less := SeenBy(d, view, p), d.(dropped := suspects);
    AgreedIsConsistent(d, view, suspects);
    EndingIs(seen, p);
    LeavingIs(d, view, p);
    if p !in suspects {
      assert seen == less;
    } else {
      DroppedEnding(less, Suspects(d, suspects), p);
      if p in d.dropped {
        DroppedEnding(seen, Listed(d.c.n, seen.dropped), p);
      } else {
        ListedSize(d.c.n, view(p));
      }
    }
  }

  lemma {:induction false} AgreedPhase<T(!new)>(d: Demo<T>, view: nat -> set<nat>, suspects: set<nat>,
      entry: Cell -> Val<T>, lo: nat)
    requires Sound(d.c) && Agreed(d, view, suspects) && Recovers(d.(dropped := suspects))
    ensures Phase(d.c.n, entry, lo, lo + 5 * |Suspects(d, suspects)| + 1, {}, Endings(d, view),
            AgreedPlan(d, view, suspects, lo), AfterParts(d, view), Left(d, view, AfterRecovery(d, view, suspects)))
  {
    hide Phase, Endings, Leaving, LeavingPlan, Left, RecoverAll, AllPlan, AfterAll, AfterParts, CanRecover, Recovers;
    var n, less, ids := d.c.n, d.(dropped := suspects), Suspects(d, suspects);
    var mid := lo + 5 * |ids|;
    AgreedIsConsistent(d, view, suspects);
    forall p: nat | 1 <= p <= n && p !in suspects ensures CanRecover(less, p, AfterParts(d, view)(p)) {
      StartsRecovery(d, view, suspects, p);
    }
    AllPhase(less, entry, ids, lo, AfterParts(d, view));
    LeavingPhase(d, view, entry, mid, AfterRecovery(d, view, suspects));
    PhaseThen(n, entry, lo, mid, mid + 1, {}, {}, {}, RecoverAll(less, ids), AllPlan(less, ids, lo),
        AfterParts(d, view), AfterRecovery(d, view, suspects), Leaving(d, view), LeavingPlan(d, view, mid),
        Left(d, view, AfterRecovery(d, view, suspects)));
    forall p: nat | 1 <= p <= n ensures Endings(d, view)(p) == Then(RecoverAll(less, ids), Leaving(d, view))(p) {
      AgreedCode(d, view, suspects, p);
    }
    SamePhase(n, entry, lo, mid + 1, Then(RecoverAll(less, ids), Leaving(d, view)), Endings(d, view),
        AgreedPlan(d, view, suspects, lo), AfterParts(d, view), Left(d, view, AfterRecovery(d, view, suspects)));
  }

  lemma {:induction false} StartsRecovery<T>(d: Demo<T>, view: nat -> set<nat>, suspects: set<nat>, p: nat)
    requires Views(d, view) && 1 <= p <= d.c.n && p !in d.dropped
    ensures CanRecover(d.(dropped := suspects), p, AfterParts(d, view)(p))
  {
    hide AfterParts, SharesFor, Result, Upwards, ResultOf;
    HoldsParts(d, view, p);
    SameData(d, suspects, p);
  }

  // ---- what everybody ends with ----

  lemma {:induction false} SuspectKeeps<T>(d: Demo<T>, ids: seq<nat>, pre: Nodes<T>, p: nat)
    requires p in d.dropped
    ensures AfterAll(d, ids, pre)(p) == pre(p)
    decreases |ids|
  {
    hide Recovered, Upwards;
    if |ids| != 0 { SuspectKeeps(d, ids[1..], AfterOne(d, ids[0], pre), p); }
  }

  /** Who is outside the set, and who is suspected without suspecting anybody. */
  predicate Fuses<T>(d: Demo<T>, view: nat -> set<nat>, suspects: set<nat>, p: nat) {
    1 <= p <= d.c.n && p !in d.dropped && (p in suspects ==> view(p) == {})
  }

  lemma {:induction false} AllSlots<T>(d: Demo<T>, view: nat -> set<nat>, suspects: set<nat>, p: nat)
    requires Sound(d.c) && Agreed(d, view, suspects) && Fuses(d, view, suspects, p)
    ensures var k := AfterRecovery(d, view, suspects)(p);
            EverySlotFilled(d, k, Result(d)) && k.finalPub == PubOf(d.c)(d.c.n)
  {
    hide AfterParts, AfterAll, SharesFor, Result, ResultOf, PubOf, DecryptMain, DecryptLead;
    var less, ids := d.(dropped := suspects), Suspects(d, suspects);
    HoldsParts(d, view, p);
    SameData(d, suspects, p);
    if p in suspects {
      SuspectKeeps(less, ids, AfterParts(d, view), p);
    } else {
      SlotsAfter(less, ids, AfterParts(d, view), p);
    }
  }

  lemma {:induction false} EverybodyEnds<T(!new)>(d: Demo<T>, view: nat -> set<nat>, suspects: set<nat>, p: nat)
    requires Lawful(d.c) && Agreed(d, view, suspects) && ResultOf(d).Ct? && Fuses(d, view, suspects, p)
    ensures EndsWell(d, Left(d, view, AfterRecovery(d, view, suspects))(p))
  {
    hide AfterRecovery, Result, ResultOf, Fusion, Rings.Commutative, Additive, AfterParts;
    var k := AfterRecovery(d, view, suspects)(p);
    AgreedIsConsistent(d, view, suspects);
    ResultIs(d);
    AllSlots(d, view, suspects, p);
    FusionIs(d.c.ring, k.slots, ResultOf(d), d.c.secret, d.c.n);
    JointPubIs(d.c.ring, d.c.secret, d.c.n);
    assert Left(d, view, AfterRecovery(d, view, suspects))(p) == k.(plaintext := Fusion(d.c.ring, k.slots, d.c.n));
  }

  /** A party that is alive but listed by everybody else does no harm: every interleaving goes well, and
      everybody outside the list, and whoever on it lists nobody, ends with the joint plaintext. */
  lemma {:induction false} AgreedEveryRun<T(!new)>(d: Demo<T>, view: nat -> set<nat>, suspects: set<nat>,
      entry: Cell -> Val<T>, who: seq<nat>)
    requires Lawful(d.c) && Agreed(d, view, suspects) && Recovers(d.(dropped := suspects)) && ResultOf(d).Ct?
    requires CanRun(Start(d.c.n, Suspecting(d, view), AtStart()), who)
    ensures var start := Start(d.c.n, Suspecting(d, view), AtStart()); var net := Run(start, who);
            && GoesWell(d.c.n, start, net, |who|)
            && (Finished(d.c.n, net) ==> forall p: nat | Fuses(d, view, suspects, p) ::
                  EndsWell(d, net.party[p].st))
  {
    hide *;
    var lo := 7 * d.c.n + 25;
    LawfulIsSound(d);
    AgreedIsConsistent(d, view, suspects);
    AgreedPhase(d, view, suspects, entry, lo);
    RunToEnd(d, view, entry, lo + 5 * |Suspects(d, suspects)| + 1, AgreedPlan(d, view, suspects, lo),
        Left(d, view, AfterRecovery(d, view, suspects)), who);
    forall p: nat | Fuses(d, view, suspects, p)
      ensures 1 <= p <= d.c.n && EndsWell(d, Left(d, view, AfterRecovery(d, view, suspects))(p))
    {
      EverybodyEnds(d, view, suspects, p);
      FusesParty(d, view, suspects, p);
    }
  }

  lemma {:induction false} LawfulIsSound<T(!new)>(d: Demo<T>)
    requires Lawful(d.c)
    ensures Sound(d.c)
  {}

  lemma {:induction false} FusesParty<T>(d: Demo<T>, view: nat -> set<nat>, suspects: set<nat>, p: nat)
    requires Fuses(d, view, suspects, p)
    ensures 1 <= p <= d.c.n
  {}

  // ---- concrete lists ----

  /** The lists of nodes 1, 2 and 3; nobody else suspects anybody. */
  function Lists3(a: set<nat>, b: set<nat>, c: set<nat>): nat -> set<nat> {
    (p: nat) => if p == 1 then a else if p == 2 then b else if p == 3 then c else {}
  }

  /** Nobody drops out, and in no interleaving do all parties get through: of three, node 2 alone
      suspects node 3, and waits for a recovery that node 1 does not make; of four, nodes 1 and 2 agree to
      recover two of them, which leaves node 1 one share short; of three, nodes 1 and 2 count one
      recovery each, but node 2's is of node 1, whose partial decryption it then takes for a recovered one. */
  lemma {:induction false} ListsFail(n: nat, a: set<nat>, b: set<nat>, who: seq<nat>)
    requires || (n == 3 && a == {} && b == {3})
             || (n == 4 && a == {3, 4} && b == {3, 4})
             || (n == 3 && a == {3} && b == {1})
    ensures var d, view := ShamirDemo.Instance(n, {}), Lists3(a, b, {});
            && ShamirDemo.ShamirSetup(d, [5, 7], ShamirDemo.Dealt) && Views(d, view) && !Consistent(d, view)
            && (CanRun(Start(n, Suspecting(d, view), AtStart()), who) ==>
                !SurvivorsThrough(d, Run(Start(n, Suspecting(d, view), AtStart()), who)))
  {
    hide Suspecting, AtStart, Run, CanRun, SurvivorsThrough, ShamirDemo.DealsShamir, ShamirDemo.Residues, ResultOf,
        Additive;
    var d, view := ShamirDemo.Instance(n, {}), Lists3(a, b, {});
    ShamirDemo.AssumptionsCanBeMet(n, {});
    NotConsistent(d, n, a, b);
    if CanRun(Start(n, Suspecting(d, view), AtStart()), who) { SuspicionsDecide(d, view, (c: Cell) => Text, who); }
  }

  lemma {:induction false} NotConsistent<T>(d: Demo<T>, n: nat, a: set<nat>, b: set<nat>)
    requires || (n == 3 && a == {} && b == {3})
             || (n == 4 && a == {3, 4} && b == {3, 4})
             || (n == 3 && a == {3} && b == {1})
    requires d.c.n == n && d.dropped == {}
    ensures Views(d, Lists3(a, b, {})) && !Consistent(d, Lists3(a, b, {}))
  {
    var view := Lists3(a, b, {});
    assert view(1) == a && view(2) == b && view(3) == {} && view(4) == {};
    assert |a| == (if n == 4 then 2 else if a == {} then 0 else 1) && |b| == if n == 4 then 2 else 1;
  }

  /** Of three parties, nodes 1 and 3 wrongly list node 2, which lists nobody: all three end well. */
  lemma {:induction false} WronglyListed(who: seq<nat>)
    requires CanRun(Start(3, Suspecting(ShamirDemo.Instance(3, {}), Lists3({2}, {}, {2})), AtStart()), who)
    ensures var d := ShamirDemo.Instance(3, {});
            var start := Start(3, Suspecting(d, Lists3({2}, {}, {2})), AtStart()); var net := Run(start, who);
            && GoesWell(3, start, net, |who|)
            && (Finished(3, net) ==> forall p: nat | 1 <= p <= 3 :: EndsWell(d, net.party[p].st))
  {
    hide *;
    ListsAgree();
    InstanceSize(3, {});
    AgreedEveryRun(ShamirDemo.Instance(3, {}), Lists3({2}, {}, {2}), {2}, (c: Cell) => Text, who);
  }

  lemma {:induction false} InstanceSize(n: nat, dropped: set<nat>)
    ensures ShamirDemo.Instance(n, dropped).c.n == n
  {}

  lemma {:induction false} ListsAgree()
    ensures var d, view := ShamirDemo.Instance(3, {}), Lists3({2}, {}, {2});
            && Lawful(d.c) && Agreed(d, view, {2}) && Recovers(d.(dropped := {2})) && ResultOf(d).Ct?
            && forall p: nat | 1 <= p <= 3 :: Fuses(d, view, {2}, p)
  {
    hide Lawful, Recovers, ResultOf, ShamirDemo.DealsShamir, ShamirDemo.Residues, Additive;
    var d, less := ShamirDemo.Instance(3, {}), ShamirDemo.Instance(3, {2});
    ShamirDemo.AssumptionsCanBeMet(3, {});
    ShamirDemo.AssumptionsCanBeMet(3, {2});
    ShamirDemo.ShamirLawful(d, [5, 7], ShamirDemo.Dealt);
    ShamirDemo.ShamirLawful(less, [5, 7], ShamirDemo.Dealt);
    assert d.(dropped := {2}) == less;
    OneListed(d);
  }

  lemma {:induction false} OneListed<T>(d: Demo<T>)
    requires d.c.n == 3 && d.dropped == {}
    ensures Agreed(d, Lists3({2}, {}, {2}), {2})
    ensures forall p: nat | 1 <= p <= 3 :: Fuses(d, Lists3({2}, {}, {2}), {2}, p)
  {
    var view := Lists3({2}, {}, {2});
    assert view(1) == {2} && view(2) == {} && view(3) == {2};
  }
}

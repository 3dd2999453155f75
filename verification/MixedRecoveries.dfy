/** Survivors whose lists are equally long but name different parties: nobody notices, and node 1 recovers
    from shares of different secrets. What exactly everybody ends with, and an input for which it is wrong. */
module MixedRecoveries {
  import opened KeyAlgebra
  import opened Network
  import opened Phases
  import opened Patterns
  import opened JointKeys
  import opened KeyTheorems
  import opened Dropouts
  import opened DropoutRuns
  import opened Suspicions
  import opened FalseSuspicions
  import opened Numbers
  import opened Shamir
  import opened ShamirDemo
  import Rings

  // ---- one round ----

  function MixShare<T>(d: Demo<T>, ids: nat -> nat): nat -> T { (j: nat) => d.share(ids(j), j) }
  /** From each party that is left a share of the secret of whom that party recovers. */
  function Mixed<T>(d: Demo<T>, ids: nat -> nat): map<nat, T> { Upwards(1, d.c.n, d.dropped, MixShare(d, ids)) }
  /** What node 1 makes of them, and tells everybody. */
  function Given<T(==)>(d: Demo<T>, ids: nat -> nat): Val<T> {
    DecryptMain(d.c.ring, Result(d), d.recover(Mixed(d, ids)))
  }

  /** Everybody left can take part, each with some other party to recover. */
  ghost predicate CanMix<T>(d: Demo<T>, ids: nat -> nat, pre: Nodes<T>) {
    forall p: nat | 1 <= p <= d.c.n && p !in d.dropped ::
      CanRecover(d, p, pre(p)) && 1 <= ids(p) <= d.c.n && ids(p) != p
  }

  lemma {:induction false} PolyStored<T>(k: Node<T>, i: nat, n: nat, skip: set<nat>, val: nat -> Val<T>,
      share: nat -> T)
    requires forall j: nat | i <= j <= n && j !in skip :: val(j) == Poly(share(j))
    ensures Stored(k, i, n, skip, val, KeepRecovery())
            == k.(recoveryShares := k.recoveryShares + Upwards(i, n, skip, share))
    decreases n + 1 - i
  {
    hide Upwards;
    UpwardsStep(k.recoveryShares, i, n, skip, share);
    if i <= n {
      PolyStored(if i in skip then k else KeepRecovery()(i)(k, val(i)), i + 1, n, skip, val, share);
    }
  }

  lemma {:induction false} SentShare<T>(d: Demo<T>, ids: nat -> nat, pre: Nodes<T>, p: nat)
    requires CanRecover(d, p, pre(p)) && 1 <= ids(p) <= d.c.n && ids(p) != p
    ensures ids(p) in pre(p).recdShares && pre(p).recdShares[ids(p)] == MixShare(d, ids)(p)
    ensures SharesSent(ids, pre)(p) == Poly(MixShare(d, ids)(p))
  {}

  lemma {:induction false} HubMixes<T>(d: Demo<T>, ids: nat -> nat, pre: Nodes<T>)
    requires EnoughLeft(d) && CanMix(d, ids, pre)
    ensures HubAfter(d, ids, pre)
            == pre(1).(recoveryShares := Mixed(d, ids), slots := pre(1).slots[ids(1) := Given(d, ids)])
  {
    hide Stored, SharesSent, MixShare, Result, SharesFor, Upwards;
    forall j: nat | 1 <= j <= d.c.n && j !in {1} + d.dropped
      ensures SharesSent(ids, pre)(j) == Poly(MixShare(d, ids)(j))
    {
      SentShare(d, ids, pre, j);
    }
    SentShare(d, ids, pre, 1);
    var k := OwnShare(ids(1))(pre(1));
    PolyStored(k, 1, d.c.n, {1} + d.dropped, SharesSent(ids, pre), MixShare(d, ids));
    Overwritten(pre(1).recoveryShares, d.c.n, d.dropped, MixShare(d, ids));
  }

  /** A round puts what node 1 tells into the slot each party left meant to fill. */
  lemma {:induction false} RoundGives<T>(d: Demo<T>, ids: nat -> nat, pre: Nodes<T>, p: nat)
    requires EnoughLeft(d) && CanMix(d, ids, pre) && 1 <= p <= d.c.n && p !in d.dropped
    ensures var k := RoundAfter(d, ids, pre)(p);
            && k.slots == pre(p).slots[ids(p) := Given(d, ids)] && k.finalPub == pre(p).finalPub
            && CanRecover(d, p, k)
  {
    hide HubAfter, Given, Result, SharesFor, Upwards;
    HubMixes(d, ids, pre);
    assert CanRecover(d, p, pre(p)) && CanRecover(d, 1, pre(1));
    RoundStates(d, ids, pre, p);
    assert Told(d, ids, pre) == Given(d, ids);
    MixedKeys(d, ids);
  }

  lemma {:induction false} MixedKeys<T>(d: Demo<T>, ids: nat -> nat)
    ensures forall j | j in Mixed(d, ids) :: 1 <= j <= d.c.n && j !in d.dropped
  {}

  // ---- all rounds ----

  /** Whom each party recovers in round r. */
  function InRound(lists: nat -> seq<nat>, r: nat): nat -> nat {
    (p: nat) => if r < |lists(p)| then lists(p)[r] else 0
  }

  /** k entries each, other parties, none twice. */
  ghost predicate GoodLists<T>(d: Demo<T>, lists: nat -> seq<nat>, k: nat) {
    forall p: nat | 1 <= p <= d.c.n && p !in d.dropped ::
      |lists(p)| == k && Distinct(lists(p)) && forall i | i in lists(p) :: 1 <= i <= d.c.n && i != p
  }

  lemma {:induction false} FirstRound<T>(d: Demo<T>, lists: nat -> seq<nat>, k: nat, pre: Nodes<T>)
    requires k != 0 && GoodLists(d, lists, k)
    requires forall p: nat | 1 <= p <= d.c.n && p !in d.dropped :: CanRecover(d, p, pre(p))
    ensures CanMix(d, Heads(lists), pre) && GoodLists(d, Tails(lists), k - 1)
  {
    hide CanRecover;
    forall p: nat | 1 <= p <= d.c.n && p !in d.dropped
      ensures 1 <= Heads(lists)(p) <= d.c.n && Heads(lists)(p) != p
      ensures var rest := Tails(lists)(p);
              |rest| == k - 1 && Distinct(rest) && forall i | i in rest :: 1 <= i <= d.c.n && i != p
    {
      assert lists(p)[0] in lists(p);
      assert forall i | i in Tails(lists)(p) :: i in lists(p);
    }
  }

  /** The same parties are recovered in round r by any two ways to say so. */
  lemma {:induction false} SameGiven<T>(d: Demo<T>, ids: nat -> nat, ids': nat -> nat)
    requires forall p: nat | 1 <= p <= d.c.n && p !in d.dropped :: ids(p) == ids'(p)
    ensures Given(d, ids) == Given(d, ids')
  {
    hide *;
    MixedSame(d, ids, ids');
    GivenIs(d, ids);
    GivenIs(d, ids');
  }

  lemma {:induction false} GivenIs<T>(d: Demo<T>, ids: nat -> nat)
    ensures Given(d, ids) == DecryptMain(d.c.ring, Result(d), d.recover(Mixed(d, ids)))
  {}

  lemma {:induction false} MixedSame<T>(d: Demo<T>, ids: nat -> nat, ids': nat -> nat)
    requires forall p: nat | 1 <= p <= d.c.n && p !in d.dropped :: ids(p) == ids'(p)
    ensures Mixed(d, ids) == Mixed(d, ids')
  {
    forall j: nat | 1 <= j <= d.c.n && j !in d.dropped ensures MixShare(d, ids)(j) == MixShare(d, ids')(j) {}
    hide MixShare;
    UpwardsSame(1, d.c.n, d.dropped, MixShare(d, ids), MixShare(d, ids'));
  }

  lemma {:induction false} UpwardsSame<A>(i: nat, n: nat, skip: set<nat>, val: nat -> A, val': nat -> A)
    requires forall j: nat | i <= j <= n && j !in skip :: val(j) == val'(j)
    ensures Upwards(i, n, skip, val) == Upwards(i, n, skip, val')
  {}

  /** After k rounds the slot of a party's r-th entry holds what node 1 told in round r. */
  lemma {:induction false} RoundsGive<T>(d: Demo<T>, lists: nat -> seq<nat>, k: nat, pre: Nodes<T>, p: nat)
    requires EnoughLeft(d) && GoodLists(d, lists, k) && 1 <= p <= d.c.n && p !in d.dropped
    requires forall q: nat | 1 <= q <= d.c.n && q !in d.dropped :: CanRecover(d, q, pre(q))
    ensures var end := RoundsAfter(d, lists, k, pre)(p);
            && end.finalPub == pre(p).finalPub && |lists(p)| == k
            && (forall j :: j in end.slots <==> j in pre(p).slots || j in lists(p))
            && (forall j | j in pre(p).slots && j !in lists(p) :: end.slots[j] == pre(p).slots[j])
            && forall r: nat | r < k :: end.slots[lists(p)[r]] == Given(d, InRound(lists, r))
    decreases k
  {
    hide CanRecover, RoundAfter, Given, CanMix, EnoughLeft;
    if k != 0 {
      var ids, rest, next := Heads(lists), Tails(lists), RoundAfter(d, Heads(lists), pre);
      FirstRound(d, lists, k, pre);
      forall q: nat | 1 <= q <= d.c.n && q !in d.dropped ensures CanRecover(d, q, next(q)) {
        RoundGives(d, ids, pre, q);
      }
      RoundGives(d, ids, pre, p);
      RoundsGive(d, rest, k - 1, next, p);
      var end := RoundsAfter(d, lists, k, pre)(p);
      assert end == RoundsAfter(d, rest, k - 1, next)(p);
      forall r: nat | r < k ensures end.slots[lists(p)[r]] == Given(d, InRound(lists, r)) {
        if r == 0 {
          SameGiven(d, ids, InRound(lists, 0));
          assert lists(p)[0] !in rest(p);
        } else {
          SameGiven(d, InRound(rest, r - 1), InRound(lists, r));
          assert lists(p)[r] == rest(p)[r - 1];
        }
      }
    }
  }

  // ---- whole runs ----

  function Entry(n: nat, suspects: set<nat>, r: nat): nat {
    if r < |Listed(n, suspects)| then Listed(n, suspects)[r] else 0
  }

  /** The shares node 1 has together in its r-th recovery. */
  function SharesOfRound<T>(d: Demo<T>, view: nat -> set<nat>, r: nat): map<nat, T> {
    map j: nat | 1 <= j <= d.c.n && j !in view(1) :: d.share(Entry(d.c.n, view(j), r), j)
  }

  /** What a party has in its slots: what it was sent, and, at its r-th entry, what node 1 made of round r. */
  ghost predicate MixedSlots<T>(d: Demo<T>, view: nat -> set<nat>, p: nat, slots: map<nat, Val<T>>,
      result: Val<T>) {
    && (forall j: nat :: j in slots <==> 1 <= j <= d.c.n)
    && (forall j: nat | 1 <= j <= d.c.n && j !in view(p) :: slots[j] == PartialOf(d.c.ring, result, d.c.secret, j))
    && |Listed(d.c.n, view(p))| == |view(1)|
    && forall r: nat | r < |view(1)| ::
         && Entry(d.c.n, view(p), r) in slots
         && slots[Entry(d.c.n, view(p), r)] == DecryptMain(d.c.ring, result, d.recover(SharesOfRound(d, view, r)))
  }

  lemma {:induction false} NacksDistinct(i: nat, n: nat, dropped: set<nat>)
    ensures Distinct(Nacks(i, n, dropped))
    decreases n + 1 - i
  {
    if i <= n {
      var rest := Nacks(i + 1, n, dropped);
      NacksDistinct(i + 1, n, dropped);
      assert ([i] + rest)[1..] == rest && [] + rest == rest;
    }
  }

  /** Node 1 recovers, and the parties it hears from take part. */
  ghost predicate Recovering<T>(d: Demo<T>, view: nat -> set<nat>) {
    Views(d, view) && Consistent(d, view) && 1 !in d.dropped && Recoveries(d.c.n, view(1)) != 0
  }

  lemma {:induction false} ListsGood<T>(d: Demo<T>, view: nat -> set<nat>)
    requires Sound(d.c) && Recovering(d, view)
    ensures var hub := SeenBy(d, view, 1);
            && hub == d.(dropped := view(1)) && EnoughLeft(hub) && Made(d, view) == |view(1)|
            && GoodLists(hub, Lists(d, view), |view(1)|)
  {
    var lists := Lists(d, view);
    forall p: nat | 1 <= p <= d.c.n && p !in view(1)
      ensures |lists(p)| == |view(1)| && Distinct(lists(p)) && forall i | i in lists(p) :: 1 <= i <= d.c.n && i != p
    {
      ListsSize(d, view, p);
      NacksDistinct(1, d.c.n, view(p));
    }
  }

  lemma {:induction false} ListsEntry<T>(d: Demo<T>, view: nat -> set<nat>, p: nat, r: nat)
    requires Sound(d.c) && Recovering(d, view) && 1 <= p <= d.c.n && p !in view(1)
    ensures Lists(d, view)(p) == Listed(d.c.n, view(p)) && InRound(Lists(d, view), r)(p) == Entry(d.c.n, view(p), r)
  {
    hide Listed;
  }

  lemma {:induction false} SameShares<T>(d: Demo<T>, view: nat -> set<nat>, r: nat)
    requires Sound(d.c) && Recovering(d, view)
    ensures Mixed(SeenBy(d, view, 1), InRound(Lists(d, view), r)) == SharesOfRound(d, view, r)
  {
    hide Entry, InRound, Lists, Consistent, Recoveries;
    var hub := SeenBy(d, view, 1);
    assert hub.c == d.c && hub.share == d.share && hub.dropped == view(1);
    forall j: nat | 1 <= j <= d.c.n && j !in view(1)
      ensures MixShare(hub, InRound(Lists(d, view), r))(j) == d.share(Entry(d.c.n, view(j), r), j)
    {
      ListsEntry(d, view, j, r);
    }
    hide MixShare;
  }

  /** Where the rounds take a party that node 1 does not list. */
  lemma {:induction false} RoundsMixed<T(!new)>(d: Demo<T>, view: nat -> set<nat>, p: nat)
    requires Lawful(d.c) && Recovering(d, view) && 1 <= p <= d.c.n && p !in view(1)
    ensures MixedSlots(d, view, p,
              RoundsAfter(SeenBy(d, view, 1), Lists(d, view), Made(d, view), AfterParts(d, view))(p).slots, ResultOf(d))
  {
    hide *;
    LawfulIsSound(d);
    HubIs(d, view);
    RoundsOf(d, view, p);
    ListsEntry(d, view, p, 0);
    ListsGood(d, view);
    Counts(d, view, p);
    GivenInRounds(d, view);
    ResultIs(d);
    var slots := RoundsAfter(SeenBy(d, view, 1), Lists(d, view), Made(d, view), AfterParts(d, view))(p).slots;
    HeldParts(d, view, p);
    SlotsMixed(d, view, p, AfterParts(d, view)(p).slots, slots, ResultOf(d), Lists(d, view)(p));
  }

  lemma {:induction false} RoundsOf<T(!new)>(d: Demo<T>, view: nat -> set<nat>, p: nat)
    requires Lawful(d.c) && Recovering(d, view) && 1 <= p <= d.c.n && p !in view(1)
    ensures var hub, lists := SeenBy(d, view, 1), Lists(d, view);
            var end := RoundsAfter(hub, lists, Made(d, view), AfterParts(d, view))(p);
            var held := AfterParts(d, view)(p).slots;
            && |lists(p)| == |view(1)|
            && (forall j :: j in end.slots <==> j in held || j in lists(p))
            && (forall j | j in held && j !in lists(p) :: end.slots[j] == held[j])
            && forall r: nat | r < |view(1)| :: end.slots[lists(p)[r]] == Given(hub, InRound(lists, r))
  {
    var hub, lists, pre, size := SeenBy(d, view, 1), Lists(d, view), AfterParts(d, view), |view(1)|;
    hide *;
    LawfulIsSound(d);
    ListsGood(d, view);
    HubIs(d, view);
    forall q: nat | 1 <= q <= d.c.n && q !in hub.dropped ensures CanRecover(hub, q, pre(q)) {
      Counts(d, view, q);
      StartsRecovery(d, view, view(1), q);
    }
    RoundsGive(hub, lists, size, pre, p);
  }

  lemma {:induction false} HubIs<T>(d: Demo<T>, view: nat -> set<nat>)
    requires Recovering(d, view)
    ensures Views(d, view) && SeenBy(d, view, 1).c == d.c && SeenBy(d, view, 1).dropped == view(1)
  {
    hide Consistent, Recoveries, Views;
  }

  lemma {:induction false} HeldParts<T>(d: Demo<T>, view: nat -> set<nat>, p: nat)
    requires Views(d, view) && 1 <= p <= d.c.n && p !in d.dropped
    ensures var slots := AfterParts(d, view)(p).slots;
            forall j: nat :: (j in slots <==> 1 <= j <= d.c.n && j !in view(p))
                             && (j in slots ==> slots[j] == PartialOf(d.c.ring, Result(d), d.c.secret, j))
  {
    hide AfterParts, PartialOf, Result, Views;
    HoldsParts(d, view, p);
  }

  lemma {:induction false} SlotsMixed<T>(d: Demo<T>, view: nat -> set<nat>, p: nat, held: map<nat, Val<T>>,
      slots: map<nat, Val<T>>, result: Val<T>, list: seq<nat>)
    requires list == Listed(d.c.n, view(p)) && |list| == |view(1)| && |view(p)| < Threshold(d.c.n)
    requires forall j: nat :: (j in held <==> 1 <= j <= d.c.n && j !in view(p))
               && (j in held ==> held[j] == PartialOf(d.c.ring, result, d.c.secret, j))
    requires forall j :: j in slots <==> j in held || j in list
    requires forall j | j in held && j !in list :: slots[j] == held[j]
    requires forall r: nat | r < |view(1)| ::
               slots[list[r]] == DecryptMain(d.c.ring, result, d.recover(SharesOfRound(d, view, r)))
    ensures MixedSlots(d, view, p, slots, result)
  {
    hide PartialOf, DecryptMain, SharesOfRound;
    assert forall j: nat :: j in list <==> 1 <= j <= d.c.n && j in view(p);
    assert forall r: nat | r < |view(1)| :: list[r] in list && Entry(d.c.n, view(p), r) == list[r];
  }

  lemma {:induction false} GivenInRounds<T(!new)>(d: Demo<T>, view: nat -> set<nat>)
    requires Lawful(d.c) && Recovering(d, view)
    ensures forall r: nat :: Given(SeenBy(d, view, 1), InRound(Lists(d, view), r))
                             == DecryptMain(d.c.ring, Result(d), d.recover(SharesOfRound(d, view, r)))
  {
    hide Lists, InRound, SharesOfRound, DecryptMain, Recoveries, Consistent, Result, ResultOf, SharesFor, Mixed,
        AliveSlots;
    forall r: nat
      ensures Given(SeenBy(d, view, 1), InRound(Lists(d, view), r))
              == DecryptMain(d.c.ring, Result(d), d.recover(SharesOfRound(d, view, r)))
    {
      SameShares(d, view, r);
      SameData(d, view(1), 1);
    }
  }

  lemma {:induction false} EndsMixed<T(!new)>(d: Demo<T>, view: nat -> set<nat>, p: nat)
    requires Lawful(d.c) && Recovering(d, view) && 1 <= p <= d.c.n && p !in view(1)
    ensures var k := AfterEndings(d, view, AfterParts(d, view))(p);
            MixedSlots(d, view, p, k.slots, ResultOf(d)) && k.plaintext == Fusion(d.c.ring, k.slots, d.c.n)
  {
    hide *;
    RoundsMixed(d, view, p);
    Counts(d, view, p);
    EndsFused(d, view, AfterParts(d, view), p);
  }

  lemma {:induction false} EndsFused<T>(d: Demo<T>, view: nat -> set<nat>, pre: Nodes<T>, p: nat)
    requires p !in d.dropped && p !in view(p) && |view(p)| < Threshold(d.c.n)
    ensures var before := RoundsAfter(SeenBy(d, view, 1), Lists(d, view), Made(d, view), pre)(p);
            AfterEndings(d, view, pre)(p) == before.(plaintext := Fusion(d.c.ring, before.slots, d.c.n))
  {
    hide RoundsAfter, Lists, Made, Fusion;
    LeavingIs(d, view, p);
    assert SeenBy(d, view, p).dropped == view(p) && |Refusing(SeenBy(d, view, p), p)| == 1;
  }

  lemma {:induction false} Counts<T>(d: Demo<T>, view: nat -> set<nat>, p: nat)
    requires Recovering(d, view) && 1 <= p <= d.c.n && p !in view(1)
    ensures p !in d.dropped && p !in view(p) && |view(p)| < Threshold(d.c.n)
  {
    assert Recoveries(d.c.n, view(p)) == Recoveries(d.c.n, view(1));
  }

  /** Whenever node 1 recovers anybody: every interleaving goes well, and everybody that node 1 does not
      list ends with what it was sent, what node 1 made of the shares of each round - its own entries' and
      the others' -, and the fusion of these. */
  lemma {:induction false} MixedEveryRun<T(!new)>(d: Demo<T>, view: nat -> set<nat>, entry: Cell -> Val<T>,
      who: seq<nat>, p: nat)
    requires Lawful(d.c) && Recovering(d, view) && 1 <= p <= d.c.n && p !in view(1)
    requires CanRun(Start(d.c.n, Suspecting(d, view), AtStart()), who)
    ensures var start := Start(d.c.n, Suspecting(d, view), AtStart()); var net := Run(start, who);
            && GoesWell(d.c.n, start, net, |who|)
            && (Finished(d.c.n, net) ==>
                  && MixedSlots(d, view, p, net.party[p].st.slots, ResultOf(d))
                  && net.party[p].st.plaintext == Fusion(d.c.ring, net.party[p].st.slots, d.c.n))
  {
    hide Suspecting, AtStart, Run, CanRun, GoesWell, AfterEndings, AfterParts, MixedSlots, ResultOf, Fusion,
        Rings.Commutative, Additive, Recoveries, Consistent;
    ConsistentRun(d, view, entry, who);
    EndsMixed(d, view, p);
  }

  // ---- an input for which it is wrong ----

  /** Party 3's polynomials are 1 above everybody else's. */
  function DealtToFour(i: nat): seq<seq<int>> { if i == 3 then [[2, 1], [3, 3]] else [[1, 1], [2, 3]] }
  function Secret(i: nat): Element { if i == 3 then [2, 3] else [1, 2] }

  function FourParties(): Demo<Element> {
    var qs: seq<nat> := [5, 7];
    var shares := (i: nat, j: nat) => Values([5, 7], DealtToFour(i), j);
    Demo(Setup(4, Residues(qs), (i: nat) => Values([5, 7], DealtToFour(i), 0), ShamirDemo.Same(), ShamirDemo.Order(4)),
         Operation.Add, shares, (i: nat, key: Val<Element>) => Ct([], []),
         (key: Val<Element>, cts: map<nat, Val<Element>>) => Ct([0, 0], [1, 1]), {},
         (m: map<nat, Element>) => RecoverParts(4, [5, 7], m))
  }

  /** Nodes 1 and 3 list node 4, node 2 lists node 3, node 4 nobody. */
  function FourLists(): nat -> set<nat> {
    (p: nat) => if p == 1 || p == 3 then {4} else if p == 2 then {3} else {}
  }

  lemma {:induction false} FourMeetAll()
    ensures ShamirSetup(FourParties(), [5, 7], DealtToFour)
  {
    hide Interpolate, Eval, Prime, Residues;
    FiveAndSeven();
    forall p: nat | 1 <= p <= 4 ensures Others(ShamirDemo.Order(4)(p), p, 4) { LiveIdsAre(1, 4, {p}); }
  }

  lemma {:induction false} FourRecovering<T>(d: Demo<T>)
    requires d.c.n == 4 && d.dropped == {}
    ensures Recovering(d, FourLists())
  {
    var view := FourLists();
    assert view(1) == {4} && view(2) == {3} && view(3) == {4} && view(4) == {};
  }

  lemma {:induction false} FourEntries()
    ensures Entry(4, {4}, 0) == 4 && Entry(4, {3}, 0) == 3
  {
    assert |Nacks(1, 4, {4})| == 1 && |Nacks(1, 4, {3})| == 1;
  }

  lemma {:induction false} FourShares()
    ensures var d := FourParties();
            SharesOfRound(d, FourLists(), 0) == map[1 := d.share(4, 1), 2 := d.share(3, 2), 3 := d.share(4, 3)]
  {
    hide Entry, Values, Residues, RecoverParts;
    FourEntries();
    var d, view := FourParties(), FourLists();
    assert view(1) == {4} && view(2) == {3} && view(3) == {4};
    assert d.c.n == 4;
  }

  lemma {:induction false} DealtValues(i: nat)
    ensures Values([5, 7], DealtToFour(i), 0) == Secret(i)
    ensures i != 3 ==> Values([5, 7], DealtToFour(i), 1) == [2, 5] && Values([5, 7], DealtToFour(i), 3) == [4, 4]
    ensures i == 3 ==> Values([5, 7], DealtToFour(i), 2) == [4, 2]
  {
    hide Eval;
    var f := DealtToFour(i);
    forall x: int
      ensures Eval(f[0], x) == f[0][0] + x * f[0][1] && Eval(f[1], x) == f[1][0] + x * f[1][1]
    {
      LineAt(f[0][0], f[0][1], x);
      LineAt(f[1][0], f[1][1], x);
      assert f[0] == [f[0][0], f[0][1]] && f[1] == [f[1][0], f[1][1]];
    }
  }

  /** A polynomial of degree two through three shares, modulo a prime. */
  lemma {:induction false} ThreeShares(q: nat, m: map<nat, int>, a: int, b: int, c: int)
    requires Prime(q) && 4 < q && m.Keys == {1, 2, 3}
    requires m[1] == (a + b + c) % q && m[2] == (a + 2 * (b + 2 * c)) % q && m[3] == (a + 3 * (b + 3 * c)) % q
    ensures Interpolate(4, q, m) == a % q
  {
    hide Eval, Interpolate, Prime;
    assert |m| == |m.Keys| == 3;
    forall j: nat | j in m ensures 1 <= j <= 4 && m[j] == Eval([a, b, c], j) % q {
      assert j in m.Keys;
      SquareAt(a, b, c, j);
    }
    AnySharesRecover([a, b, c], 3, 4, q, m);
    SquareAt(a, b, c, 0);
  }

  /** Parties 1 and 3 gave shares of one secret, party 2 of another. */
  lemma {:induction false} FourRecover()
    ensures RecoverParts(4, [5, 7], map[1 := [2, 5], 2 := [4, 2], 3 := [4, 4]]) == [3, 6]
  {
    hide Interpolate, Prime;
    var m: map<nat, Element> := map[1 := [2, 5], 2 := [4, 2], 3 := [4, 4]];
    FiveAndSeven();
    assert Part(m, 0) == map[1 := 2, 2 := 4, 3 := 4] && Part(m, 1) == map[1 := 5, 2 := 2, 3 := 4];
    ThreeShares(5, Part(m, 0), -2, 5, -1);
    ThreeShares(7, Part(m, 1), -1, 7, -1);
  }

  lemma {:induction false} FourRecovered()
    ensures var d := FourParties(); d.recover(SharesOfRound(d, FourLists(), 0)) == [3, 6]
  {
    hide Entry, Values, Residues, RecoverParts, SharesOfRound, DealtToFour;
    FourShares();
    DealtValues(4);
    DealtValues(3);
    FourRecover();
  }

  /** What node 1 fuses, and what it should. */
  lemma {:induction false} FourSlots(slots: map<nat, Val<Element>>)
    requires var d, view := FourParties(), FourLists(); MixedSlots(d, view, 1, slots, Ct([0, 0], [1, 1]))
    ensures Fusion(FourParties().c.ring, slots, 4) == Poly([2, 6])
  {
    hide Residues, Values, RecoverParts, SharesOfRound, Entry, DealtToFour, Listed;
    var d, view := FourParties(), FourLists();
    var r := d.c.ring;
    assert view(1) == {4} && d.c.n == 4 && r == Residues([5, 7]) && |view(1)| == 1;
    FourEntries();
    FourRecovered();
    DealtValues(1);
    DealtValues(2);
    DealtValues(3);
    FourSums();
    assert slots[1] == Poly([1, 2]) && slots[2] == Poly([1, 2]) && slots[3] == Poly([2, 3]);
    assert slots[4] == Poly([3, 6]);
    assert Fusion(r, slots, 1) == Poly([1, 2]) && Fusion(r, slots, 2) == Poly([2, 4]);
    assert Fusion(r, slots, 3) == Poly([4, 0]);
  }

  lemma {:induction false} FourSums()
    ensures var r := Residues([5, 7]);
            && r.add([0, 0], r.mul([1, 2], [1, 1])) == [1, 2] && r.mul([1, 2], [1, 1]) == [1, 2]
            && r.mul([2, 3], [1, 1]) == [2, 3] && r.mul([3, 6], [1, 1]) == [3, 6]
            && r.add([1, 2], [1, 2]) == [2, 4] && r.add([2, 4], [2, 3]) == [4, 0]
            && r.add([4, 0], [3, 6]) == [2, 6] && r.add([4, 0], [1, 2]) == [0, 2]
            && r.add([0, 0], r.mul([0, 2], [1, 1])) == [0, 2]
  {
    hide Residues;
    TimesOne(1, 2);
    TimesOne(2, 3);
    TimesOne(3, 6);
    TimesOne(0, 2);
    AddTwo(0, 0, 1, 2);
    AddTwo(1, 2, 1, 2);
    AddTwo(2, 4, 2, 3);
    AddTwo(4, 0, 3, 6);
    AddTwo(4, 0, 1, 2);
    AddTwo(0, 0, 0, 2);
  }

  lemma {:induction false} FourJointly()
    ensures var d := FourParties();
            && ResultOf(d) == Ct([0, 0], [1, 1])
            && DecryptLead(d.c.ring, ResultOf(d), Joint(d.c)) == Poly([0, 2])
  {
    hide Residues, Values, RecoverParts, DealtToFour;
    var d := FourParties();
    var r, s := d.c.ring, d.c.secret;
    assert r == Residues([5, 7]) && d.c.n == 4;
    DealtValues(1);
    DealtValues(2);
    DealtValues(3);
    DealtValues(4);
    FourSums();
    assert s(1) == [1, 2] && s(2) == [1, 2] && s(3) == [2, 3] && s(4) == [1, 2];
    assert Rings.SumTo(r, s, 1) == [1, 2] && Rings.SumTo(r, s, 2) == [2, 4] && Rings.SumTo(r, s, 3) == [4, 0];
    assert Rings.SumTo(r, s, 4) == [0, 2];
  }

  /** Nobody drops out, every interleaving goes well and all finish without an error, but node 1 ends
      with 2 and 6 where the joint secret gives 0 and 2. */
  lemma {:induction false} SilentlyWrong(who: seq<nat>)
    requires CanRun(Start(4, Suspecting(FourParties(), FourLists()), AtStart()), who)
    ensures var d := FourParties();
            var start := Start(4, Suspecting(d, FourLists()), AtStart()); var net := Run(start, who);
            && ShamirSetup(d, [5, 7], DealtToFour) && GoesWell(4, start, net, |who|)
            && (Finished(4, net) ==> net.party[1].st.plaintext == Poly([2, 6]))
            && DecryptLead(d.c.ring, ResultOf(d), Joint(d.c)) == Poly([0, 2])
  {
    hide *;
    FourMeetAll();
    ShamirLawful(FourParties(), [5, 7], DealtToFour);
    FourSize();
    FourRecovering(FourParties());
    MixedEveryRun(FourParties(), FourLists(), (c: Cell) => Text, who, 1);
    FourJointly();
    var start := Start(4, Suspecting(FourParties(), FourLists()), AtStart());
    var net := Run(start, who);
    OneIsThere(4, start, net, |who|);
    if Finished(4, net) { FourSlots(net.party[1].st.slots); }
  }

  lemma {:induction false} OneIsThere<L, V>(n: nat, start: Net<L, V>, net: Net<L, V>, steps: nat)
    requires 1 <= n && GoesWell(n, start, net, steps)
    ensures Parties(n, net) && 1 in net.party
  {}

  lemma {:induction false} FourSize()
    ensures FourParties().c.n == 4 && FourParties().dropped == {} && 1 !in FourLists()(1)
  {}
}

/** How the shares of a dropped party's secret are put together: collected by node 1 from its peers,
    or selected by the server. */
module Recovery {
  import Phases
  import Patterns
  import Dropouts

  // ---- node 1 collects ----

  predicate IsPeer(j: nat, n: nat, nodeId: nat, nack: seq<nat>) {
    1 <= j <= n && j != nodeId && j !in nack
  }

  ghost function Absent(nodeId: nat, nack: seq<nat>): set<nat> { {nodeId} + set j | j in nack }

  /** How many passes over `live` peers the count needs to reach the threshold. */
  function Passes(live: nat, count: nat, threshold: nat): nat
    requires 0 < live
    decreases threshold - count
  {
    if count >= threshold then 0 else 1 + Passes(live, count + live, threshold)
  }

  /** Every peer has sent what `passes` rounds take, and those below `upto` one more. */
  ghost predicate Arrived<T>(inbox: nat -> seq<T>, passes: nat, upto: nat, n: nat, nodeId: nat, nack: seq<nat>) {
    forall j: nat | IsPeer(j, n, nodeId, nack) :: passes + (if j < upto then 1 else 0) <= |inbox(j)|
  }

  /** The shares after `passes` rounds, and one more with the peers below `upto`: from each peer the
      last one it sent in them. */
  ghost predicate Collected<T>(shares: map<nat, T>, before: map<nat, T>, inbox: nat -> seq<T>, passes: nat, upto: nat,
      n: nat, nodeId: nat, nack: seq<nat>)
    requires Arrived(inbox, passes, upto, n, nodeId, nack)
  {
    && (forall j: nat ::
          j in shares <==> j in before || (IsPeer(j, n, nodeId, nack) && 0 < passes + if j < upto then 1 else 0))
    && (forall j: nat | j in shares ::
          shares[j] == if IsPeer(j, n, nodeId, nack) && j < upto then inbox(j)[passes]
                       else if IsPeer(j, n, nodeId, nack) && 0 < passes then inbox(j)[passes - 1]
                       else before[j])
  }

  lemma {:induction false} NextPeer<T>(shares: map<nat, T>, before: map<nat, T>, inbox: nat -> seq<T>, passes: nat,
      j: nat, n: nat, nodeId: nat, nack: seq<nat>)
    requires Arrived(inbox, passes, j, n, nodeId, nack) && Collected(shares, before, inbox, passes, j, n, nodeId, nack)
    requires IsPeer(j, n, nodeId, nack) ==> passes < |inbox(j)|
    ensures Arrived(inbox, passes, j + 1, n, nodeId, nack)
    ensures Collected(if IsPeer(j, n, nodeId, nack) then shares[j := inbox(j)[passes]] else shares, before, inbox,
            passes, j + 1, n, nodeId, nack)
  {}

  lemma {:induction false} NextRound<T>(shares: map<nat, T>, before: map<nat, T>, inbox: nat -> seq<T>, passes: nat,
      n: nat, nodeId: nat, nack: seq<nat>)
    requires Arrived(inbox, passes, n + 1, n, nodeId, nack) && Collected(shares, before, inbox, passes, n + 1, n,
             nodeId, nack)
    ensures Arrived(inbox, passes + 1, 0, n, nodeId, nack) && Collected(shares, before, inbox, passes + 1, 0, n, nodeId,
             nack)
  {}

  lemma {:induction false} FirstPeer<T>(shares: map<nat, T>, before: map<nat, T>, inbox: nat -> seq<T>, passes: nat,
      n: nat, nodeId: nat, nack: seq<nat>)
    requires Arrived(inbox, passes, 0, n, nodeId, nack) && Collected(shares, before, inbox, passes, 0, n, nodeId, nack)
    ensures Arrived(inbox, passes, 1, n, nodeId, nack) && Collected(shares, before, inbox, passes, 1, n, nodeId, nack)
  {}

  /** The collection loop. `inbox(j)` lists the shares that peer j ever sends; `blocked` says that the
      loop never ends: it waits for one more from some peer, or, with no peer at all, goes round without
      counting anything. */
  method CollectShares<T>(n: nat, nodeId: nat, nack: seq<nat>, threshold: nat, before: map<nat, T>,
      inbox: nat -> seq<T>)
    returns (shares: map<nat, T>, blocked: bool)
    ensures Patterns.LiveIds(1, n, Absent(nodeId, nack)) == [] ==>
              (blocked <==> 1 < threshold) && (!blocked ==> shares == before)
    ensures Patterns.LiveIds(1, n, Absent(nodeId, nack)) != [] ==>
              var passes := Passes(|Patterns.LiveIds(1, n, Absent(nodeId, nack))|, 1, threshold);
              blocked <==> exists j: nat :: IsPeer(j, n, nodeId, nack) && |inbox(j)| < passes
    ensures Patterns.LiveIds(1, n, Absent(nodeId, nack)) != [] && !blocked ==>
              var passes := Passes(|Patterns.LiveIds(1, n, Absent(nodeId, nack))|, 1, threshold);
              Arrived(inbox, passes, 0, n, nodeId, nack) && Collected(shares, before, inbox, passes, 0, n, nodeId, nack)
  {
    ghost var skip := Absent(nodeId, nack);
    ghost var live := |Patterns.LiveIds(1, n, skip)|;
    ghost var total := if live == 0 then 0 else Passes(live, 1, threshold);
    assert Arrived(inbox, 0, 0, n, nodeId, nack) && Collected(before, before, inbox, 0, 0, n, nodeId, nack);
    hide Collected;
    shares, blocked := before, false;
    var count := 1;
    var round := 0;
    while count < threshold
      invariant live != 0 ==> round + Passes(live, count, threshold) == total
      invariant live == 0 ==> count == 1 && shares == before
      invariant Arrived(inbox, round, 0, n, nodeId, nack) && Collected(shares, before, inbox, round, 0, n, nodeId, nack)
      decreases threshold - count
    {
      var start := count;
      FirstPeer(shares, before, inbox, round, n, nodeId, nack);
      for j := 1 to n + 1
        invariant start <= count && count + |Patterns.LiveIds(j, n, skip)| == start + live
        invariant live == 0 ==> shares == before
        invariant Arrived(inbox, round, j, n, nodeId, nack) && Collected(shares, before, inbox, round, j, n, nodeId,
                 nack)
      {
        if j != nodeId && j !in nack {
          if |inbox(j)| <= round {
            blocked := true;
            assert IsPeer(j, n, nodeId, nack) && |inbox(j)| < total;
            return;
          }
          NextPeer(shares, before, inbox, round, j, n, nodeId, nack);
          shares := shares[j := inbox(j)[round]];
          count := count + 1;
        } else {
          NextPeer(shares, before, inbox, round, j, n, nodeId, nack);
        }
      }
      if count == start {
        blocked := true;
        return;
      }
      NextRound(shares, before, inbox, round, n, nodeId, nack);
      round := round + 1;
    }
  }

  /** When every peer sends one share, the loop gets through exactly if the peers and node 1 itself
      reach the threshold, and then it takes one pass. */
  lemma {:induction false} OnePassSuffices(live: nat, threshold: nat)
    requires 0 < live && 2 <= threshold
    ensures Passes(live, 1, threshold) <= 1 <==> live + 1 >= threshold
    ensures Passes(live, 1, threshold) >= 1
  {
    assert Passes(live, 1, threshold) == 1 + Passes(live, 1 + live, threshold);
  }

  // ---- the server selects ----

  /** The first `room` ids of j..n other than the dropped one. */
  function Chosen(j: nat, n: nat, dropped: nat, room: nat): (ids: seq<nat>)
    ensures forall k | k in ids :: j <= k <= n && k != dropped
    ensures Phases.Distinct(ids)
    decreases n + 1 - j
  {
    if j > n then []
    else if j != dropped && 0 < room then [j] + Chosen(j + 1, n, dropped, room - 1)
    else Chosen(j + 1, n, dropped, room)
  }

  /** The ids chosen are the first ones: those with fewer than `room` others before them. */
  lemma {:induction false} ChosenAreFirst(j: nat, n: nat, dropped: nat, room: nat, k: nat)
    requires j <= k
    ensures k in Chosen(j, n, dropped, room)
            <==> k <= n && k != dropped && k - j - (if j <= dropped < k then 1 else 0) < room
    decreases n + 1 - j
  {
    hide Phases.Distinct;
    if j <= n && k != j {
      if j != dropped && 0 < room {
        ChosenAreFirst(j + 1, n, dropped, room - 1, k);
      } else {
        ChosenAreFirst(j + 1, n, dropped, room, k);
      }
    }
  }

  function Min(a: nat, b: nat): nat { if a <= b then a else b }

  lemma {:induction false} ChosenCount(j: nat, n: nat, dropped: nat, room: nat)
    requires j <= n + 1
    ensures |Chosen(j, n, dropped, room)| == Min(room, n + 1 - j - (if j <= dropped <= n then 1 else 0))
    decreases n + 1 - j
  {
    if j <= n {
      if j != dropped && 0 < room { ChosenCount(j + 1, n, dropped, room - 1); } else { ChosenCount(j + 1, n, dropped,
          room); }
    }
  }

  /** The server's loop over the shares `ss` that the dropped client had uploaded; where one is missing
      the table yields an empty one. */
  method SelectShares<T>(ss: map<nat, T>, empty: T, dropped: nat, threshold: nat, n: nat)
    returns (sst: map<nat, T>)
    ensures forall j: nat :: j in sst <==> j in Chosen(1, n, dropped, threshold)
    ensures forall j: nat ::
              j in sst <==> 1 <= j <= n && j != dropped && j - (if 1 <= dropped < j then 1 else 0) <= threshold
    ensures forall j: nat | j in sst :: sst[j] == if j in ss then ss[j] else empty
  {
    sst := map[];
    var mapsize := 1;
    for j := 1 to n + 1
      invariant 1 <= mapsize <= threshold + 1
      invariant forall k: nat :: k in Chosen(1, n, dropped, threshold) <==> k in sst || k in Chosen(j, n, dropped,
               threshold + 1 - mapsize)
      invariant forall k: nat | k in sst :: sst[k] == if k in ss then ss[k] else empty
    {
      if j != dropped && mapsize <= threshold {
        sst := sst[j := if j in ss then ss[j] else empty];
        mapsize := mapsize + 1;
      }
    }
    forall j: nat
      ensures j in sst <==> 1 <= j <= n && j != dropped && j - (if 1 <= dropped < j then 1 else 0) <= threshold
    {
      if 1 <= j { ChosenAreFirst(1, n, dropped, threshold, j); }
    }
  }

  /** The server hands out min(threshold, n - 1) shares, never the dropped client's own, hence a full
      threshold of them if and only if there are at least three clients. */
  lemma {:induction false} SelectionSize(n: nat, dropped: nat)
    requires 1 <= dropped <= n
    ensures |Chosen(1, n, dropped, Dropouts.Threshold(n))| == Min(Dropouts.Threshold(n), n - 1)
    ensures dropped !in Chosen(1, n, dropped, Dropouts.Threshold(n))
    ensures Phases.Distinct(Chosen(1, n, dropped, Dropouts.Threshold(n)))
    ensures |Chosen(1, n, dropped, Dropouts.Threshold(n))| == Dropouts.Threshold(n) <==> 3 <= n
  {
    ChosenCount(1, n, dropped, Dropouts.Threshold(n));
  }
}

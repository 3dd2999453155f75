/** Virtual registers inside one encrypted vector: every write adds a vector that is zero but in one
    place, so a vector that travels along a path gathers each node's data at that node's index. */
module Registers {

  /** Where each register starts and how long it is. */
  type Layout = map<string, (nat, nat)>

  datatype Write = Write(name: string, val: real, index: nat)

  /** Registers inside `slots` places that do not overlap. */
  ghost predicate Fits(layout: Layout, slots: nat) {
    && (forall a | a in layout :: layout[a].0 + layout[a].1 <= slots)
    && (forall a, b | a in layout && b in layout && a != b ::
        layout[a].0 + layout[a].1 <= layout[b].0 || layout[b].0 + layout[b].1 <= layout[a].0)
  }

  predicate InRange(layout: Layout, name: string, index: nat) { name in layout && index < layout[name].1 }

  /** initialize_map: three registers of four places and a counter, whatever the number of nodes. */
  method InitializeMap(ringsize: nat) returns (ok: bool, layout: Layout)
    ensures layout == map["v1" := (0, 4), "v2" := (4, 4), "v3" := (8, 4), "n" := (12, 1)]
    ensures ok <==> 13 <= ringsize / 2
    ensures ok ==> Fits(layout, ringsize / 2)
  {
    var offset, length := 0, 4;
    layout := map["v1" := (offset, length)];
    offset := offset + length;
    layout := layout["v2" := (offset, length)];
    offset := offset + length;
    layout := layout["v3" := (offset, length)];
    offset := offset + length;
    length := 1;
    layout := layout["n" := (offset, length)];
    offset := offset + length;
    ok := offset <= ringsize / 2;
  }

  /** Slot by slot; the shorter vector counts as filled up with zeros. */
  function Added(ct: seq<real>, v: seq<real>): (r: seq<real>)
    requires |v| <= |ct|
    ensures |r| == |ct| && forall i | 0 <= i < |ct| :: r[i] == ct[i] + if i < |v| then v[i] else 0.0
  {
    seq(|ct|, i requires 0 <= i < |ct| => ct[i] + if i < |v| then v[i] else 0.0)
  }

  function Apply(layout: Layout, ct: seq<real>, w: Write): (r: seq<real>)
    requires InRange(layout, w.name, w.index) && layout[w.name].0 + layout[w.name].1 <= |ct|
    ensures |r| == |ct|
  {
    var place := layout[w.name].0 + w.index;
    ct[place := ct[place] + w.val]
  }

  /** write: beyond the end of a register, or without such a register, the source goes on to an access
      out of bounds, which is no result here. */
  method WriteRegister(layout: Layout, cipherText: seq<real>, w: Write) returns (ok: bool, r: seq<real>)
    requires Fits(layout, |cipherText|)
    ensures ok <==> InRange(layout, w.name, w.index)
    ensures r == if ok then Apply(layout, cipherText, w) else cipherText
  {
    r := cipherText;
    if w.name !in layout {
      return false, r;
    }
    var (offset, length) := layout[w.name];
    if w.index >= length {
      return false, r;
    }
    var invec := seq(offset + length, i => 0.0);
    invec := invec[offset + w.index := w.val];
    r := Added(cipherText, invec);
    assert r == Apply(layout, cipherText, w);
    ok := true;
  }

  function Stretch(layout: Layout, pt: seq<real>, name: string): (r: seq<real>)
    requires name in layout && layout[name].0 + layout[name].1 <= |pt|
    ensures |r| == layout[name].1 && forall i | 0 <= i < |r| :: r[i] == pt[layout[name].0 + i]
  {
    pt[layout[name].0..layout[name].0 + layout[name].1]
  }

  /** unpackPT: every register's stretch of the vector. */
  method UnpackPT(layout: Layout, pt: seq<real>) returns (outmap: map<string, seq<real>>)
    requires Fits(layout, |pt|)
    ensures outmap.Keys == layout.Keys && forall a | a in layout :: outmap[a] == Stretch(layout, pt, a)
  {
    hide Stretch;
    outmap := map[];
    var todo := layout.Keys;
    while todo != {}
      invariant todo <= layout.Keys && outmap.Keys == layout.Keys - todo
      invariant forall a | a in outmap :: outmap[a] == Stretch(layout, pt, a)
      decreases |todo|
    {
      var name :| name in todo;
      outmap := outmap[name := Stretch(layout, pt, name)];
      todo := todo - {name};
    }
  }

  // ---- many writes ----

  predicate AllInRange(layout: Layout, ws: seq<Write>) { forall w | w in ws :: InRange(layout, w.name, w.index) }

  function ApplyAll(layout: Layout, ct: seq<real>, ws: seq<Write>): (r: seq<real>)
    requires AllInRange(layout, ws) && (forall a | a in layout :: layout[a].0 + layout[a].1 <= |ct|)
    ensures |r| == |ct|
    decreases |ws|
  {
    if |ws| == 0 then ct else ApplyAll(layout, Apply(layout, ct, ws[0]), ws[1..])
  }

  /** The sum of what was written to one place of one register. */
  function SumAt(ws: seq<Write>, name: string, index: nat): real {
    if |ws| == 0 then 0.0
    else (if ws[0].name == name && ws[0].index == index then ws[0].val else 0.0) + SumAt(ws[1..], name, index)
  }

  /** Each place of a register holds what it held before plus the sum of the writes to it; what lies in
      no register is untouched. */
  lemma {:induction false} PlaceHoldsSum(layout: Layout, ct: seq<real>, ws: seq<Write>, name: string, index: nat)
    requires Fits(layout, |ct|) && AllInRange(layout, ws) && InRange(layout, name, index)
    ensures ApplyAll(layout, ct, ws)[layout[name].0 + index] == ct[layout[name].0 + index] + SumAt(ws, name, index)
    decreases |ws|
  {
    if |ws| != 0 {
      assert ws[0] in ws;
      PlaceHoldsSum(layout, Apply(layout, ct, ws[0]), ws[1..], name, index);
    }
  }

  lemma {:induction false} OutsideUntouched(layout: Layout, ct: seq<real>, ws: seq<Write>, place: nat)
    requires Fits(layout, |ct|) && AllInRange(layout, ws) && place < |ct|
    requires forall a | a in layout :: !(layout[a].0 <= place < layout[a].0 + layout[a].1)
    ensures ApplyAll(layout, ct, ws)[place] == ct[place]
    decreases |ws|
  {
    if |ws| != 0 {
      assert ws[0] in ws;
      OutsideUntouched(layout, Apply(layout, ct, ws[0]), ws[1..], place);
    }
  }

  // ---- the path ----

  function Vector(i: nat): string { if i == 0 then "v1" else if i == 1 then "v2" else "v3" }

  function NodeWrites(nodeId: nat, data: seq<real>): seq<Write>
    requires 1 <= nodeId && |data| == 3
  {
    [Write("v1", data[0], nodeId - 1), Write("v2", data[1], nodeId - 1), Write("v3", data[2], nodeId - 1),
        Write("n", 1.0, 0)]
  }

  ghost predicate Standard(layout: Layout) {
    layout == map["v1" := (0, 4), "v2" := (4, 4), "v3" := (8, 4), "n" := (12, 1)]
  }

  /** All writes of nodes 1..n, in the order of the path. */
  function PathWrites(n: nat, data: nat -> seq<real>): seq<Write>
    requires forall i: nat :: |data(i)| == 3
  {
    if n == 0 then [] else PathWrites(n - 1, data) + NodeWrites(n, data(n))
  }

  lemma {:induction false} SumAtConcat(a: seq<Write>, b: seq<Write>, name: string, index: nat)
    ensures SumAt(a + b, name, index) == SumAt(a, name, index) + SumAt(b, name, index)
  {
    if |a| == 0 {
      assert a + b == b;
    } else {
      SumAtConcat(a[1..], b, name, index);
      assert (a + b)[1..] == a[1..] + b;
    }
  }

  lemma {:induction false} NamesDiffer()
    ensures "v1" != "v2" && "v1" != "v3" && "v2" != "v3" && "n" != "v1" && "n" != "v2" && "n" != "v3"
  {
    assert "v1"[1] != "v2"[1] && "v1"[1] != "v3"[1] && "v2"[1] != "v3"[1];
    assert |"n"| == 1 && |"v1"| == 2 && |"v2"| == 2 && |"v3"| == 2;
  }

  lemma {:induction false} SumOfFour(a: Write, b: Write, c: Write, d: Write, name: string, index: nat)
    ensures SumAt([a, b, c, d], name, index)
            == SumAt([a], name, index) + SumAt([b], name, index) + SumAt([c], name, index) + SumAt([d], name, index)
  {
    SumAtConcat([a], [b, c, d], name, index);
    SumAtConcat([b], [c, d], name, index);
    SumAtConcat([c], [d], name, index);
    assert [a, b, c, d] == [a] + [b, c, d] && [b, c, d] == [b] + [c, d] && [c, d] == [c] + [d];
  }

  lemma {:induction false} SumOfOne(w: Write, name: string, index: nat)
    ensures SumAt([w], name, index) == if w.name == name && w.index == index then w.val else 0.0
  {}

  lemma {:induction false} NodeSum(nodeId: nat, data: seq<real>, name: string, index: nat)
    requires 1 <= nodeId && |data| == 3
    ensures SumAt(NodeWrites(nodeId, data), name, index)
            == (if name == "v1" && index == nodeId - 1 then data[0] else 0.0) + (if name == "v2"
                && index == nodeId - 1 then data[1] else 0.0)
               + (if name == "v3" && index == nodeId - 1 then data[2] else 0.0) + (if name == "n"
                   && index == 0 then 1.0 else 0.0)
  {
    hide SumAt;
    var ws := NodeWrites(nodeId, data);
    SumOfFour(ws[0], ws[1], ws[2], ws[3], name, index);
    SumOfOne(ws[0], name, index);
    SumOfOne(ws[1], name, index);
    SumOfOne(ws[2], name, index);
    SumOfOne(ws[3], name, index);
  }

  lemma {:induction false} NodeSums(nodeId: nat, data: seq<real>, k: nat, index: nat)
    requires 1 <= nodeId && |data| == 3 && k < 3
    ensures SumAt(NodeWrites(nodeId, data), Vector(k), index) == if index == nodeId - 1 then data[k] else 0.0
    ensures SumAt(NodeWrites(nodeId, data), "n", 0) == 1.0
  {
    hide SumAt, NodeWrites;
    NamesDiffer();
    NodeSum(nodeId, data, Vector(k), index);
    NodeSum(nodeId, data, "n", 0);
  }

  lemma {:induction false} PathSums(n: nat, data: nat -> seq<real>, k: nat, index: nat)
    requires (forall i: nat :: |data(i)| == 3) && k < 3
    ensures SumAt(PathWrites(n, data), Vector(k), index) == if index < n then data(index + 1)[k] else 0.0
    ensures SumAt(PathWrites(n, data), "n", 0) == n as real
  {
    if n != 0 {
      PathSums(n - 1, data, k, index);
      NodeSums(n, data(n), k, index);
      SumAtConcat(PathWrites(n - 1, data), NodeWrites(n, data(n)), Vector(k), index);
      SumAtConcat(PathWrites(n - 1, data), NodeWrites(n, data(n)), "n", 0);
    }
  }

  lemma {:induction false} NodeInRange(layout: Layout, nodeId: nat, data: seq<real>)
    requires Standard(layout) && 1 <= nodeId && |data| == 3
    ensures AllInRange(layout, NodeWrites(nodeId, data)) <==> nodeId <= 4
  {
    NamesDiffer();
    assert NodeWrites(nodeId, data)[0] in NodeWrites(nodeId, data);
  }

  lemma {:induction false} NextWrite(layout: Layout, ct: seq<real>, ws: seq<Write>, i: nat)
    requires Fits(layout, |ct|) && AllInRange(layout, ws) && i < |ws|
    ensures InRange(layout, ws[i].name, ws[i].index) && AllInRange(layout, ws[i..]) && AllInRange(layout, ws[i + 1..])
    ensures ApplyAll(layout, ct, ws[i..]) == ApplyAll(layout, Apply(layout, ct, ws[i]), ws[i + 1..])
  {
    assert ws[i..][0] == ws[i] && ws[i..][1..] == ws[i + 1..];
  }

  /** What one node does to the vector that passes it. */
  method AccumulateNode(layout: Layout, prevCT: seq<real>, nodeId: nat, vectorOfInts: seq<real>)
      returns (ok: bool, ct: seq<real>)
    requires Standard(layout) && Fits(layout, |prevCT|) && 1 <= nodeId && |vectorOfInts| == 3
    ensures ok <==> nodeId <= 4
    ensures ok ==> AllInRange(layout, NodeWrites(nodeId, vectorOfInts)) && ct == ApplyAll(layout, prevCT,
             NodeWrites(nodeId, vectorOfInts))
  {
    hide AllInRange, ApplyAll, Apply;
    ct := prevCT;
    ghost var ws := NodeWrites(nodeId, vectorOfInts);
    NodeInRange(layout, nodeId, vectorOfInts);
    NamesDiffer();
    assert ws[0..] == ws;
    for i := 0 to 3
      invariant |ct| == |prevCT| && (i != 0 ==> nodeId <= 4)
      invariant nodeId <= 4 ==> AllInRange(layout, ws[i..]) && ApplyAll(layout, ct, ws[i..]) == ApplyAll(layout, prevCT,
               ws)
    {
      var fits, next := WriteRegister(layout, ct, Write(Vector(i), vectorOfInts[i], nodeId - 1));
      if !fits {
        return false, ct;
      }
      NextWrite(layout, ct, ws, i);
      ct := next;
    }
    var _, next := WriteRegister(layout, ct, Write("n", 1.0, 0));
    NextWrite(layout, ct, ws, 3);
    assert ApplyAll(layout, next, ws[4..]) == next by { NoneLeft(layout, next, ws[4..]); }
    return true, next;
  }

  lemma {:induction false} NoneLeft(layout: Layout, ct: seq<real>, ws: seq<Write>)
    requires |ws| == 0 && Fits(layout, |ct|)
    ensures AllInRange(layout, ws) && ApplyAll(layout, ct, ws) == ct
  {}

  lemma {:induction false} AllInRangeConcat(layout: Layout, a: seq<Write>, b: seq<Write>)
    ensures AllInRange(layout, a + b) <==> AllInRange(layout, a) && AllInRange(layout, b)
  {
    assert forall w | w in a :: w in a + b;
    assert forall w | w in b :: w in a + b;
  }

  lemma {:induction false} PathInRange(layout: Layout, n: nat, data: nat -> seq<real>)
    requires Standard(layout) && forall i: nat :: |data(i)| == 3
    ensures AllInRange(layout, PathWrites(n, data)) <==> n <= 4
  {
    hide AllInRange, NodeWrites, Standard;
    if n == 0 {
      assert AllInRange(layout, []) by { NoneInRange(layout); }
    } else {
      PathInRange(layout, n - 1, data);
      NodeInRange(layout, n, data(n));
      AllInRangeConcat(layout, PathWrites(n - 1, data), NodeWrites(n, data(n)));
    }
  }

  lemma {:induction false} NoneInRange(layout: Layout)
    ensures AllInRange(layout, [])
  {}

  lemma {:induction false} InSlots(layout: Layout, slots: nat, name: string, index: nat)
    requires Fits(layout, slots) && InRange(layout, name, index)
    ensures layout[name].0 + index < slots
  {}

  /** A path of at most four nodes leaves each node's data at its own index, zeros beyond the last
      node, and the number of nodes in the counter. More nodes do not fit the registers. */
  lemma {:induction false} PathGathers(layout: Layout, slots: nat, n: nat, data: nat -> seq<real>, k: nat, index: nat)
    requires Standard(layout) && Fits(layout, slots) && (forall i: nat :: |data(i)| == 3) && k < 3 && index < 4
    ensures AllInRange(layout, PathWrites(n, data)) <==> n <= 4
    ensures n <= 4 ==>
              var ct := ApplyAll(layout, seq(slots, i => 0.0), PathWrites(n, data));
              ct[layout[Vector(k)].0 + index] == (if index < n then data(index + 1)[k] else 0.0)
                  && ct[layout["n"].0] == n as real
  {
    hide AllInRange, PathWrites, SumAt, Fits, ApplyAll;
    NamesDiffer();
    PathInRange(layout, n, data);
    if n <= 4 {
      var zero := seq(slots, i => 0.0);
      InSlots(layout, slots, Vector(k), index);
      InSlots(layout, slots, "n", 0);
      PathSums(n, data, k, index);
      PlaceHoldsSum(layout, zero, PathWrites(n, data), Vector(k), index);
      PlaceHoldsSum(layout, zero, PathWrites(n, data), "n", 0);
    }
  }
}

/** The message queues of a node, one per peer, and how a message is taken from them. */
module MessageQueues {

  /** What the programs use of a message. A message without content is what a queue returns when it
      finds nothing. */
  datatype Message = Message(acknowledgement: bool, nodeName: string, msgType: string, data: string)

  const NO_MESSAGE := Message(false, "", "", "")

  /** The queue from its first message of the type on. */
  function FromType(q: seq<Message>, msgType: string): (r: seq<Message>)
    ensures |r| <= |q| && r == q[|q| - |r|..]
    ensures |r| != 0 ==> r[0].msgType == msgType
    ensures forall i | 0 <= i < |q| - |r| :: q[i].msgType != msgType
  {
    if |q| == 0 || q[0].msgType == msgType then q else FromType(q[1..], msgType)
  }

  function Front(q: seq<Message>): Message { if |q| == 0 then NO_MESSAGE else q[0] }
  function Rest(q: seq<Message>): seq<Message> { if |q| == 0 then [] else q[1..] }

  class MessageQueue {
    var items: seq<Message>

    constructor ()
      ensures items == []
    {
      items := [];
    }

    method Push(item: Message)
      modifies this
      ensures items == old(items) + [item]
    {
      items := items + [item];
    }

    method Pop() returns (t: Message)
      modifies this
      ensures t == Front(old(items)) && items == Rest(old(items))
    {
      t := NO_MESSAGE;
      if |items| != 0 {
        t := items[0];
        items := items[1..];
      }
    }

    method PopWithType(msgType: string) returns (t: Message)
      modifies this
      ensures t == Front(FromType(old(items), msgType)) && items == Rest(FromType(old(items), msgType))
    {
      t := NO_MESSAGE;
      while |items| != 0
        invariant FromType(items, msgType) == FromType(old(items), msgType)
        decreases |items|
      {
        if items[0].msgType == msgType {
          t := items[0];
          items := items[1..];
          return;
        }
        items := items[1..];
      }
    }

    method Empty() returns (r: bool)
      ensures r <==> items == []
    {
      r := |items| == 0;
    }
  }

  /** What taking a message does to a queue: an empty type takes the front, whatever it is. */
  function Taken(q: seq<Message>, msgType: string): Message {
    if |q| == 0 then NO_MESSAGE
    else (if msgType == "" then Front(q) else Front(FromType(q, msgType))).(acknowledgement := true)
  }
  function Left(q: seq<Message>, msgType: string): seq<Message> {
    if msgType == "" then Rest(q) else Rest(FromType(q, msgType))
  }

  /** Where a receive finds its message: in front, or, for a type, at the first message of that type. */
  predicate FoundAt(q: seq<Message>, msgType: string, i: nat) {
    && i < |q| && (msgType == "" ==> i == 0)
    && (msgType != "" ==> q[i].msgType == msgType && forall j | 0 <= j < i :: q[j].msgType != msgType)
  }

  /** The message taken is the one found, every field but the acknowledgement as it was, and the queue
      goes on behind it. */
  lemma {:induction false} TakenIs(q: seq<Message>, msgType: string, i: nat)
    requires FoundAt(q, msgType, i)
    ensures Taken(q, msgType) == q[i].(acknowledgement := true) && Left(q, msgType) == q[i + 1..]
  {
    if msgType != "" { FromFirst(q, msgType, i); }
  }

  lemma {:induction false} FromFirst(q: seq<Message>, msgType: string, i: nat)
    requires i < |q| && q[i].msgType == msgType && forall j | 0 <= j < i :: q[j].msgType != msgType
    ensures FromType(q, msgType) == q[i..]
  {
    if i != 0 { FromFirst(q[1..], msgType, i - 1); }
  }

  /** The last poll: the one before it has seen more than `timeout` slept; 0 means no limit. */
  predicate TimedOut(polls: nat, sleep: nat, timeout: nat) {
    timeout != 0 && 1 <= polls && (polls - 1) * sleep > timeout
  }

  /** How a wait goes: the reply, what is left in the queue, whether it is still polling when nothing
      more is known to arrive, and how many times it polled again. */
  datatype Waited = Waited(reply: Message, left: seq<Message>, waiting: bool, polls: nat)

  function Wait(q: seq<Message>, msgType: string, sleep: nat, timeout: nat, arrivals: seq<seq<Message>>,
      polls: nat): Waited
    requires polls <= |arrivals|
    decreases |arrivals| - polls
  {
    if q != [] then Waited(Taken(q, msgType), Left(q, msgType), false, polls)
    else if TimedOut(polls, sleep, timeout) then Waited(NO_MESSAGE, [], false, polls)
    else if polls == |arrivals| then Waited(NO_MESSAGE, [], true, polls)
    else Wait(arrivals[polls], msgType, sleep, timeout, arrivals, polls + 1)
  }

  class Node {
    var msgQueues: map<string, MessageQueue>

    ghost predicate Valid()
      reads this
    {
      forall a, b | a in msgQueues && b in msgQueues && a != b :: msgQueues[a] != msgQueues[b]
    }

    /** The messages from a peer; a peer without a queue counts as one with an empty queue. */
    ghost function Queue(peer: string): seq<Message>
      reads this, msgQueues.Values
    {
      if peer in msgQueues then msgQueues[peer].items else []
    }

    constructor ()
      ensures Valid() && forall peer :: Queue(peer) == []
    {
      msgQueues := map[];
    }

    /** Looking a peer up creates its queue if there is none. */
    method QueueOf(peer: string) returns (q: MessageQueue)
      requires Valid()
      modifies this
      ensures Valid() && peer in msgQueues && msgQueues[peer] == q && q.items == old(Queue(peer))
      ensures forall p :: Queue(p) == old(Queue(p))
      ensures old(msgQueues.Keys) <= msgQueues.Keys && (forall p | p in old(msgQueues) ::
               msgQueues[p] == old(msgQueues[p]))
      ensures fresh(msgQueues.Values - old(msgQueues.Values))
    {
      if peer !in msgQueues {
        var fresh_ := new MessageQueue();
        msgQueues := msgQueues[peer := fresh_];
      }
      q := msgQueues[peer];
    }

    /** A request from a peer: its message goes to the end of that peer's queue and is acknowledged. */
    method Receive(msg: Message) returns (acknowledged: bool)
      requires Valid()
      modifies this, msgQueues.Values
      ensures Valid() && acknowledged && Queue(msg.nodeName) == old(Queue(msg.nodeName)) + [msg]
      ensures forall p | p != msg.nodeName :: Queue(p) == old(Queue(p))
      ensures fresh(msgQueues.Values - old(msgQueues.Values))
    {
      var q := QueueOf(msg.nodeName);
      q.Push(msg);
      acknowledged := true;
    }

    /** The front of the peer's queue, or its first message of the type, as it was delivered, marked as
        acknowledged; what stood before it is gone. */
    method GetMsg(peer: string, msgType: string) returns (msg: Message)
      requires Valid()
      modifies this, msgQueues.Values
      ensures Valid() && msg == Taken(old(Queue(peer)), msgType)
      ensures Queue(peer) == Left(old(Queue(peer)), msgType)
      ensures forall i: nat | FoundAt(old(Queue(peer)), msgType, i) ::
                msg == old(Queue(peer))[i].(acknowledgement := true) && Queue(peer) == old(Queue(peer))[i + 1..]
      ensures forall p | p != peer :: Queue(p) == old(Queue(p))
      ensures fresh(msgQueues.Values - old(msgQueues.Values))
    {
      msg := NO_MESSAGE;
      var q := QueueOf(peer);
      var empty := q.Empty();
      if !empty {
        if |msgType| == 0 {
          msg := q.Pop();
        } else {
          msg := q.PopWithType(msgType);
        }
        msg := msg.(acknowledgement := true);
      }
      ghost var q0 := old(Queue(peer));
      forall i: nat | FoundAt(q0, msgType, i)
        ensures msg == q0[i].(acknowledgement := true) && Left(q0, msgType) == q0[i + 1..]
      {
        TakenIs(q0, msgType, i);
      }
    }

    method Deliver(peer: string, msgs: seq<Message>)
      requires Valid() && forall m | m in msgs :: m.nodeName == peer
      modifies this, msgQueues.Values
      ensures Valid() && Queue(peer) == old(Queue(peer)) + msgs
      ensures forall p | p != peer :: Queue(p) == old(Queue(p))
      ensures fresh(msgQueues.Values - old(msgQueues.Values))
    {
      for i := 0 to |msgs|
        invariant Valid() && Queue(peer) == old(Queue(peer)) + msgs[..i]
        invariant forall p | p != peer :: Queue(p) == old(Queue(p))
        invariant fresh(msgQueues.Values - old(msgQueues.Values))
      {
        assert msgs[i] in msgs;
        var _ := Receive(msgs[i]);
        assert msgs[..i + 1] == msgs[..i] + [msgs[i]];
      }
      assert msgs[..|msgs|] == msgs;
    }

    /** One poll after the peer delivered `arrived`. */
    method PollAgain(peer: string, msgType: string, arrived: seq<Message>) returns (reply: Message)
      requires Valid() && Queue(peer) == [] && forall m | m in arrived :: m.nodeName == peer
      modifies this, msgQueues.Values
      ensures Valid() && reply == Taken(arrived, msgType) && Queue(peer) == Left(arrived, msgType)
      ensures forall p | p != peer :: Queue(p) == old(Queue(p))
      ensures fresh(msgQueues.Values - old(msgQueues.Values))
    {
      hide Left, Taken, FromType;
      assert [] + arrived == arrived;
      Deliver(peer, arrived);
      reply := GetMsg(peer, msgType);
    }

    /** Polls until a message is there or the time is up; `arrivals` lists what the peer delivers
        between one poll and the next. */
    method GetMsgWait(peer: string, msgType: string, sleep: nat, timeout: nat, arrivals: seq<seq<Message>>)
      returns (reply: Message, waiting: bool, polls: nat)
      requires Valid() && forall i | 0 <= i < |arrivals| :: forall m | m in arrivals[i] :: m.nodeName == peer
      modifies this, msgQueues.Values
      ensures Valid() && Waited(reply, Queue(peer), waiting, polls) == Wait(old(Queue(peer)), msgType, sleep, timeout,
               arrivals, 0)
      ensures forall p | p != peer :: Queue(p) == old(Queue(p))
    {
      polls, waiting := 0, false;
      reply := GetMsg(peer, msgType);
      var timeoutCtr := 0;
      while !reply.acknowledgement
        invariant Valid() && polls <= |arrivals| && timeoutCtr == polls && !waiting
        invariant fresh(msgQueues.Values - old(msgQueues.Values))
        invariant forall p | p != peer :: Queue(p) == old(Queue(p))
        invariant !reply.acknowledgement ==> Queue(peer) == [] && reply == NO_MESSAGE && !TimedOut(polls, sleep,
                 timeout)
        invariant Wait(old(Queue(peer)), msgType, sleep, timeout, arrivals, 0)
                  == if reply.acknowledgement then Waited(reply, Queue(peer), false, polls)
                     else Wait([], msgType, sleep, timeout, arrivals, polls)
        decreases |arrivals| - polls, !reply.acknowledgement
      {
        if polls == |arrivals| { waiting := true; return; }
        reply := PollAgain(peer, msgType, arrivals[polls]);
        polls := polls + 1;
        if timeoutCtr * sleep > timeout && timeout != 0 { return; }
        timeoutCtr := timeoutCtr + 1;
      }
    }
  }

  // ---- what the callers rely on ----

  /** A typed receive loses no message of another type if and only if its match is in front, and then
      it does the same as an untyped one. */
  lemma {:induction false} TypedKeepsOthers(q: seq<Message>, msgType: string)
    requires q != [] && msgType != ""
    ensures (exists d :: d in q[..|q| - |Left(q, msgType)|] && d.msgType != msgType) <==> q[0].msgType != msgType
    ensures q[0].msgType == msgType ==> Taken(q, msgType) == Taken(q, "") && Left(q, msgType) == Left(q, "")
  {
    var gone := q[..|q| - |Left(q, msgType)|];
    assert gone[0] == q[0];
    if q[0].msgType == msgType { assert gone == [q[0]]; } else { assert gone[0] in gone; }
  }

  /** A receive is acknowledged whenever the queue is not empty, but the message it returns is one that
      was sent if and only if the type occurs; otherwise the whole queue is lost. */
  lemma {:induction false} AcknowledgedWithoutMatch(q: seq<Message>, msgType: string)
    requires q != [] && msgType != ""
    ensures Taken(q, msgType).acknowledgement
    ensures (exists m :: m in q && m.msgType == msgType) <==> Taken(q, msgType).msgType == msgType
    ensures !(exists m :: m in q && m.msgType == msgType) ==>
              Taken(q, msgType) == Message(true, "", "", "") && Left(q, msgType) == []
  {
    var r := FromType(q, msgType);
    if r != [] { assert r[0] in q; }
  }

  // ---- what arrives is what was sent ----

  datatype Event = Delivered(msg: Message) | Received(msgType: string)

  /** The replies to the receives, and what is left in the queue. */
  function Play(q: seq<Message>, events: seq<Event>): (seq<Message>, seq<Message>)
    decreases |events|
  {
    if |events| == 0 then ([], q)
    else
      match events[0]
      case Delivered(m) => Play(q + [m], events[1..])
      case Received(t) => var (replies, left) := Play(Left(q, t), events[1..]); ([Taken(q, t)] + replies, left)
  }

  function Sent(events: seq<Event>): seq<Message> {
    if |events| == 0 then []
    else (if events[0].Delivered? then [events[0].msg] else []) + Sent(events[1..])
  }

  /** The replies that are messages. */
  function Got(replies: seq<Message>): (r: seq<Message>)
    ensures |r| <= |replies|
  {
    if |replies| == 0 then []
    else (if replies[0].acknowledgement then [replies[0]] else []) + Got(replies[1..])
  }

  ghost predicate Untyped(events: seq<Event>) {
    forall i | 0 <= i < |events| :: events[i].Received? ==> events[i].msgType == ""
  }

  /** What was got is the beginning of what was sent, field by field but for the acknowledgement, and
      what is left is the rest. */
  ghost predicate InSequence(sent: seq<Message>, got: seq<Message>, left: seq<Message>) {
    && |got| <= |sent| && left == sent[|got|..]
    && forall k: nat | k < |got| :: got[k] == sent[k].(acknowledgement := true)
  }

  /** However deliveries and untyped receives alternate: the k-th message received is the k-th one that
      was in the queue or delivered, content and all, and the others are still there in order. */
  lemma {:induction false} InOrder(q: seq<Message>, events: seq<Event>)
    requires Untyped(events)
    ensures var (replies, left) := Play(q, events); InSequence(q + Sent(events), Got(replies), left)
    decreases |events|
  {
    hide *;
    if |events| == 0 {
      NoEvents(q);
    } else {
      var rest := events[1..];
      FirstEvent(q, events);
      match events[0]
      case Delivered(m) =>
        InOrder(q + [m], rest);
        assert q + [m] + Sent(rest) == q + ([m] + Sent(rest));
      case Received(t) =>
        InOrder(Left(q, t), rest);
        var (replies, left) := Play(Left(q, t), rest);
        GotOneMore(Taken(q, t), replies);
        OneReceived(q, Sent(rest), Got(replies), left);
    }
  }

  lemma {:induction false} NoEvents(q: seq<Message>)
    ensures var (replies, left) := Play(q, []); InSequence(q + Sent([]), Got(replies), left)
  {
    assert q + [] == q;
  }

  lemma {:induction false} FirstEvent(q: seq<Message>, events: seq<Event>)
    requires |events| != 0 && Untyped(events)
    ensures Untyped(events[1..])
    ensures match events[0]
            case Delivered(m) =>
              Play(q, events) == Play(q + [m], events[1..]) && Sent(events) == [m] + Sent(events[1..])
            case Received(t) =>
              var (replies, left) := Play(Left(q, t), events[1..]);
              t == "" && Play(q, events) == ([Taken(q, t)] + replies, left) && Sent(events) == Sent(events[1..])
  {}

  lemma {:induction false} GotOneMore(m: Message, replies: seq<Message>)
    ensures Got([m] + replies) == (if m.acknowledgement then [m] else []) + Got(replies)
  {
    assert ([m] + replies)[1..] == replies;
  }

  lemma {:induction false} OneReceived(q: seq<Message>, later: seq<Message>, got: seq<Message>, left: seq<Message>)
    requires InSequence(Left(q, "") + later, got, left)
    ensures InSequence(q + later, (if Taken(q, "").acknowledgement then [Taken(q, "")] else []) + got, left)
  {
    if |q| != 0 {
      TakenIs(q, "", 0);
      var sent := q + later;
      assert sent[1..] == q[1..] + later;
      assert forall k: nat | 1 <= k < |sent| :: sent[k] == sent[1..][k - 1];
    } else {
      assert [] + got == got;
    }
  }

  lemma {:induction false} PlayMore(q: seq<Message>, events: seq<Event>, t: string)
    ensures var (replies, left) := Play(q, events);
            Play(q, events + [Received(t)]) == (replies + [Taken(left, t)], Left(left, t))
    decreases |events|
  {
    hide *;
    var all := events + [Received(t)];
    PlayFirst(q, all);
    PlayFirst(q, events);
    if |events| == 0 {
      assert all[1..] == [];
      PlayFirst(Left(q, t), []);
      assert [Taken(q, t)] + [] == [] + [Taken(q, t)];
    } else {
      assert all[1..] == events[1..] + [Received(t)] && all[0] == events[0];
      match events[0]
      case Delivered(m) => PlayMore(q + [m], events[1..], t);
      case Received(u) =>
        PlayMore(Left(q, u), events[1..], t);
        var (replies, left) := Play(Left(q, u), events[1..]);
        assert [Taken(q, u)] + (replies + [Taken(left, t)]) == [Taken(q, u)] + replies + [Taken(left, t)];
    }
  }

  lemma {:induction false} PlayFirst(q: seq<Message>, events: seq<Event>)
    ensures |events| == 0 ==> Play(q, events) == ([], q)
    ensures |events| != 0 ==>
              match events[0]
              case Delivered(m) => Play(q, events) == Play(q + [m], events[1..])
              case Received(t) =>
                var (replies, left) := Play(Left(q, t), events[1..]); Play(q, events) == ([Taken(q, t)] + replies, left)
  {}

  lemma {:induction false} EmptyTaken(q: seq<Message>)
    ensures Taken(q, "").acknowledgement <==> q != []
  {}

  /** A receive comes back without a message if and only if all that was delivered has been received. */
  lemma {:induction false} NothingIffAllReceived(events: seq<Event>)
    requires Untyped(events)
    ensures var replies := Play([], events + [Received("")]).0; var got := Got(Play([], events).0);
            |replies| != 0 && (!replies[|replies| - 1].acknowledgement <==> |got| == |Sent(events)|)
  {
    hide Taken, Left, Play, Got;
    PlayMore([], events, "");
    InOrder([], events);
    EmptyTaken(Play([], events).1);
    assert [] + Sent(events) == Sent(events);
  }

  /** Nothing arrives in the first `count` intervals. */
  ghost predicate Silent(arrivals: seq<seq<Message>>, count: nat) {
    count <= |arrivals| && forall i | 0 <= i < count :: arrivals[i] == []
  }

  lemma {:induction false} FoundInside(q: seq<Message>, msgType: string, i: nat)
    requires FoundAt(q, msgType, i)
    ensures q != [] && i < |q|
  {}

  /** A message that arrives in interval k, in time and after nothing else, is what the wait returns. */
  lemma {:induction false} WaitGets(msgType: string, sleep: nat, timeout: nat, arrivals: seq<seq<Message>>,
      polls: nat, k: nat, i: nat)
    requires Silent(arrivals, k) && polls <= k < |arrivals| && FoundAt(arrivals[k], msgType, i)
    requires forall j: nat | polls <= j <= k :: !TimedOut(j, sleep, timeout)
    ensures Wait([], msgType, sleep, timeout, arrivals, polls)
            == Waited(arrivals[k][i].(acknowledgement := true), arrivals[k][i + 1..], false, k + 1)
    decreases k - polls
  {
    hide TimedOut, Taken, Left, FoundAt;
    assert !TimedOut(polls, sleep, timeout);
    if polls == k {
      assert arrivals[k] != [] by { FoundInside(arrivals[k], msgType, i); }
      TakenIs(arrivals[k], msgType, i);
    } else {
      WaitGets(msgType, sleep, timeout, arrivals, polls + 1, k, i);
    }
  }

  lemma {:induction false} WaitInSilence(msgType: string, sleep: nat, timeout: nat, arrivals: seq<seq<Message>>,
      polls: nat, last: nat)
    requires TimedOut(last, sleep, timeout) && (forall k: nat | k < last :: !TimedOut(k, sleep, timeout))
    requires polls <= last && Silent(arrivals, polls)
    ensures var w := Wait([], msgType, sleep, timeout, arrivals, polls);
            !w.waiting && !w.reply.acknowledgement <==> Silent(arrivals, last)
    decreases last - polls
  {
    if polls < last && polls < |arrivals| {
      if arrivals[polls] == [] { WaitInSilence(msgType, sleep, timeout, arrivals, polls + 1, last); }
    }
  }

  lemma {:induction false} LastPoll(sleep: nat, timeout: nat)
    requires 0 < sleep
    ensures (timeout / sleep + 1) * sleep > timeout && (timeout / sleep) * sleep <= timeout
  {}

  lemma {:induction false} NotLater(a: nat, b: nat, sleep: nat)
    requires a <= b
    ensures a * sleep <= b * sleep
  {}

  /** A peer is taken for dropped out if and only if its queue is empty and it delivers nothing in the
      timeout / sleep + 2 intervals that follow. */
  lemma {:induction false} DropoutDetected(q: seq<Message>, msgType: string, sleep: nat, timeout: nat,
      arrivals: seq<seq<Message>>)
    requires 0 < sleep && 0 < timeout
    ensures var w := Wait(q, msgType, sleep, timeout, arrivals, 0);
            !w.waiting && !w.reply.acknowledgement <==> q == [] && Silent(arrivals, timeout / sleep + 2)
  {
    var last := timeout / sleep + 2;
    LastPoll(sleep, timeout);
    forall k: nat | k < last ensures !TimedOut(k, sleep, timeout) {
      if 1 <= k { NotLater(k - 1, last - 2, sleep); }
    }
    hide TimedOut, Silent;
    if q == [] { WaitInSilence(msgType, sleep, timeout, arrivals, 0, last); }
  }

  /** What a wait returns: of the messages already there, or of the first ones to arrive if they do so in
      the timeout / sleep + 2 intervals that count, the one in front, or the first of the type - content
      and all. */
  lemma {:induction false} WaitReturns(q: seq<Message>, msgType: string, sleep: nat, timeout: nat,
      arrivals: seq<seq<Message>>, k: nat, i: nat)
    requires 0 < sleep
    ensures FoundAt(q, msgType, i) ==>
              Wait(q, msgType, sleep, timeout, arrivals, 0)
              == Waited(q[i].(acknowledgement := true), q[i + 1..], false, 0)
    ensures q == [] && Silent(arrivals, k) && k < |arrivals| && FoundAt(arrivals[k], msgType, i)
            && (timeout == 0 || k < timeout / sleep + 2) ==>
              Wait(q, msgType, sleep, timeout, arrivals, 0)
              == Waited(arrivals[k][i].(acknowledgement := true), arrivals[k][i + 1..], false, k + 1)
  {
    if FoundAt(q, msgType, i) { TakenIs(q, msgType, i); }
    if q == [] && Silent(arrivals, k) && k < |arrivals| && FoundAt(arrivals[k], msgType, i)
       && (timeout == 0 || k < timeout / sleep + 2) {
      forall j: nat | j <= k ensures !TimedOut(j, sleep, timeout) {
        if timeout != 0 && 1 <= j {
          LastPoll(sleep, timeout);
          NotLater(j - 1, timeout / sleep, sleep);
        }
      }
      hide TimedOut;
      WaitGets(msgType, sleep, timeout, arrivals, 0, k, i);
    }
  }
}

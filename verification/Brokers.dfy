/** A tree of brokers that fetch ciphertexts from upstream, re-encrypt them to themselves, cache them
    and keep routing tables; key servers per trust zone. */
module Brokers {
  import opened RoutingText

  /** Whose key: producers, brokers and consumers have one key pair each. */
  datatype Who = Producer(name: string) | Broker(name: string) | Consumer(name: string)

  /** A ciphertext under the owner's key: which upload of which producer it carries, and how often it
      was re-encrypted. Re-encryption with a key for another owner leaves garbage. */
  datatype Ciphertext = Ct(owner: Who, producer: string, version: nat, hops: nat) | Garbage

  /** What a request for a re-encryption key comes back with: the server raised an error, no bytes, the
      serialized null key (receiver not on the access map), or a key from one owner to another. */
  datatype Rekey = Raised | NoBytes | NullKey | Key(from: Who, to: Who)

  function ReEncrypt(ct: Ciphertext, from: Who, to: Who): Ciphertext {
    if ct.Ct? && ct.owner == from then Ct(to, ct.producer, ct.version, ct.hops + 1) else Garbage
  }

  // ---- key servers ----

  /** What a key server holds: private keys of the producers and brokers registered with it, public
      keys, and the names it may issue keys for. */
  datatype Zone = Zone(private: set<Who>, public: set<Who>, accessMap: seq<string>)

  datatype Option<+T> = None | Some(value: T)

  /** The request that the key server above answers, for a receiver whose public key it was just sent. */
  function RekeyAcross(above: Zone, sender: Who, receiver: Who): Rekey {
    if sender !in above.private then NoBytes
    else if receiver.name in above.accessMap then Key(sender, receiver) else NullKey
  }

  /** The request that a broker's own key server answers. */
  function RekeyFor(zone: Zone, above: Option<Zone>, sender: Who, receiver: Who): Rekey {
    if sender !in zone.private then
      if sender.Producer? then NoBytes
      else if receiver !in zone.public || above.None? then Raised
      else RekeyAcross(above.value, sender, receiver)
    else if receiver.name !in zone.accessMap then NullKey
    else if receiver !in zone.public then Raised
    else Key(sender, receiver)
  }

  class KeyServer {
    const zone: Zone
    const above: KeyServer?
    /** Public keys received from the key server below. */
    var received: set<Who>

    constructor (zone: Zone, above: KeyServer?)
      ensures this.zone == zone && this.above == above && received == {}
    {
      this.zone, this.above, received := zone, above, {};
    }

    ghost function ZoneAbove(): Option<Zone> { if above == null then None else Some(above.zone) }

    method PublicKeyFromServer(receiver: Who)
      modifies this
      ensures received == old(received) + {receiver}
    {
      received := received + {receiver};
    }

    method ReEncryptionKeyToServer(sender: Who, receiver: Who) returns (r: Rekey)
      ensures r == if receiver in received then RekeyAcross(zone, sender, receiver) else NoBytes
    {
      if sender !in zone.private || receiver !in received {
        return NoBytes;
      }
      r := NullKey;
      if receiver.name in zone.accessMap {
        r := Key(sender, receiver);
      }
    }

    method ReEncryptionKeyToBroker(sender: Who, receiver: Who) returns (r: Rekey)
      modifies above
      ensures r == RekeyFor(zone, ZoneAbove(), sender, receiver)
      ensures above != null ==>
                above.received == old(above.received)
                                  + if sender !in zone.private && !sender.Producer? && receiver in zone.public
                                    then {receiver} else {}
    {
      var registered := receiver in zone.public;
      if sender !in zone.private {
        if sender.Producer? {
          return NoBytes;
        }
        if !registered || above == null {
          return Raised;
        }
        above.PublicKeyFromServer(receiver);
        r := above.ReEncryptionKeyToServer(sender, receiver);
      } else {
        r := NullKey;
        if receiver.name in zone.accessMap {
          if !registered { return Raised; }
          r := Key(sender, receiver);
        }
      }
    }
  }

  /** Whether the key server, or the one above, holds the sender's private key, and which access map
      then counts. */
  predicate Held(zone: Zone, above: Option<Zone>, sender: Who) {
    sender in zone.private || (!sender.Producer? && above.Some? && sender in above.value.private)
  }

  function MapOf(zone: Zone, above: Option<Zone>, sender: Who): seq<string>
    requires Held(zone, above, sender)
  {
    if sender in zone.private then zone.accessMap else above.value.accessMap
  }

  /** For a key that is held and a receiver that is registered the access map decides. */
  lemma {:induction false} MapDecides(zone: Zone, above: Option<Zone>, sender: Who, receiver: Who)
    requires Held(zone, above, sender) && receiver in zone.public
    ensures RekeyFor(zone, above, sender, receiver)
            == if receiver.name in MapOf(zone, above, sender) then Key(sender, receiver) else NullKey
  {}

  /** What a broker is answered. A key is granted if and only if the sender's private key is held, the
      receiver is registered below and on the map that counts; the null key if it is not on that map, at
      once where the private key is; nothing for an unknown producer, or one level up for a broker whose
      private key is not there either. */
  lemma {:induction false} RekeyAnswers(zone: Zone, above: Option<Zone>, sender: Who, receiver: Who)
    ensures var r := RekeyFor(zone, above, sender, receiver);
            var here, known := sender in zone.private, receiver in zone.public;
            && (r.Key? <==> Held(zone, above, sender) && known && receiver.name in MapOf(zone, above, sender))
            && (r.Key? ==> r == Key(sender, receiver))
            && (r.NullKey? <==> Held(zone, above, sender) && (here || known)
                                && receiver.name !in MapOf(zone, above, sender))
            && (r.NoBytes? <==> !Held(zone, above, sender) && (sender.Producer? || (known && above.Some?)))
            && (r.Raised? <==> || (here && !known && receiver.name in zone.accessMap)
                               || (!here && !sender.Producer? && (!known || above.None?)))
  {}

  // ---- the brokers ----

  /** Broker b's name, its upstream broker (a smaller number) if any, its zone and the zone above, and
      the broker each producer is attached to. */
  datatype World = World(name: nat -> string, upstream: nat -> Option<nat>, zone: nat -> Zone,
      above: nat -> Option<Zone>, attach: string -> nat)

  /** What the brokers hold, and how many times each producer has uploaded. */
  datatype Net = Net(cache: map<nat, map<string, Ciphertext>>, routing: map<nat, seq<Route>>, uploads: map<string, nat>)

  datatype Reply = Found(ct: Ciphertext) | NotFound | Failed

  function CacheOf(net: Net, b: nat): map<string, Ciphertext> { if b in net.cache then net.cache[b] else map[] }
  function RoutingOf(net: Net, b: nat): seq<Route> { if b in net.routing then net.routing[b] else [] }
  function Uploads(net: Net, p: string): nat { if p in net.uploads then net.uploads[p] else 0 }
  function Put(net: Net, b: nat, p: string, ct: Ciphertext): Net {
    net.(cache := net.cache[b := CacheOf(net, b)[p := ct]])
  }
  function Record(net: Net, b: nat, r: Route): Net { net.(routing := net.routing[b := RoutingOf(net, b) + [r]]) }

  function Me(w: World, b: nat): Who { Broker(w.name(b)) }
  function Ask(w: World, b: nat, sender: Who, receiver: Who): Rekey {
    RekeyFor(w.zone(b), w.above(b), sender, receiver)
  }
  /** Whether b's key server, or the one above, can tell the public key. */
  function KnowsKey(w: World, b: nat, k: Who): bool {
    k in w.zone(b).public || (!k.Producer? && w.above(b).Some? && k in w.above(b).value.public)
  }

  function ProducerOf(channel: string): string { Split(channel, "-")[0] }
  function ConsumerOf(channel: string): Option<string> {
    var pieces := Split(channel, "-");
    if |pieces| < 2 then None else Some(pieces[1])
  }

  /** What b does with a ciphertext and the answer about the key: no public key or no bytes raise an
      error, and a null key passes the ciphertext on as it is. */
  function Convert(known: bool, key: Rekey, ct: Ciphertext): Reply {
    if !known || key.NoBytes? || key.Raised? then Failed
    else if key.NullKey? then Found(ct)
    else Found(ReEncrypt(ct, key.from, key.to))
  }

  predicate Routed(net: Net, b: nat, channel: string, destination: string) {
    channel in LastRoutes(RoutingOf(net, b), destination)
  }

  function Upstream(w: World, b: nat, channel: string): Who {
    match w.upstream(b) case Some(u) => Me(w, u) case None => Producer(ProducerOf(channel))
  }
  function RouteOf(w: World, b: nat, channel: string, destination: string): Route {
    Route(channel, Upstream(w, b, channel).name, destination, if w.upstream(b).None? then "source" else "")
  }

  /** Where b takes the ciphertext of the channel from: its cache, or upstream, re-encrypted to b. */
  function Obtain(w: World, net: Net, b: nat, destination: string, channel: string): (Net, Reply)
    decreases b, 0
  {
    var p := ProducerOf(channel);
    if p in CacheOf(net, b) then (net, Found(CacheOf(net, b)[p]))
    else if Routed(net, b, channel, destination) then (net, Failed)
    else if Ask(w, b, Upstream(w, b, channel), Me(w, b)).Raised? then (net, Failed)
    else match w.upstream(b)
      case None => (net, NotFound)
      case Some(u) =>
        if u >= b then (net, Failed) else
        var (net', r) := Fetch(w, net, u, w.name(b), channel);
        if !r.Found? then (net', r) else
        match Convert(KnowsKey(w, b, Me(w, u)), Ask(w, b, Me(w, u), Me(w, b)), r.ct)
        case Found(ct) => (Put(net', b, p, ct), Found(ct))
        case other => (net', Failed)
  }

  /** A fetch by the broker downstream. */
  function Fetch(w: World, net: Net, b: nat, down: string, channel: string): (Net, Reply)
    decreases b, 1
  {
    var (net', r) := Obtain(w, net, b, down, channel);
    if r.Found? then (Record(net', b, RouteOf(w, b, channel, down)), r) else (net', r)
  }

  /** A fetch by a consumer. The keys from upstream to b are asked for even when they are not needed. */
  function Consume(w: World, net: Net, b: nat, consumer: string, channel: string): (Net, Reply) {
    if ConsumerOf(channel) != Some(consumer) then (net, Failed)
    else if Ask(w, b, Upstream(w, b, channel), Me(w, b)).Raised? then (net, Failed)
    else
      var (net', r) := Obtain(w, net, b, consumer, channel);
      if r.Failed? || Ask(w, b, Me(w, b), Consumer(consumer)).Raised? then (net', Failed)
      else if r.NotFound? then (net', NotFound)
      else
        (Record(net', b, RouteOf(w, b, channel, consumer)),
         Convert(KnowsKey(w, b, Me(w, b)), Ask(w, b, Me(w, b), Consumer(consumer)), r.ct))
  }

  /** A producer's upload at the broker it is attached to, re-encrypted to that broker. A null key
      makes the library raise an error. */
  function Upload(w: World, net: Net, p: string): (Net, bool) {
    var b, ct := w.attach(p), Ct(Producer(p), p, Uploads(net, p), 0);
    var key := Ask(w, b, Producer(p), Me(w, b));
    if !KnowsKey(w, b, Producer(p)) || !key.Key? then (net, false)
    else (Put(net, b, p, ReEncrypt(ct, key.from, key.to)).(uploads := net.uploads[p := Uploads(net, p) + 1]), true)
  }

  /** The brokers' request handlers, on the maps they share. */
  class BrokerTree {
    const w: World
    var cache: map<nat, map<string, Ciphertext>>
    var routing: map<nat, seq<Route>>
    var uploads: map<string, nat>

    ghost function State(): Net
      reads this
    {
      Net(cache, routing, uploads)
    }

    constructor (w: World)
      ensures this.w == w && State() == Net(map[], map[], map[])
    {
      this.w, cache, routing, uploads := w, map[], map[], map[];
    }

    method CipherTextFromProducer(p: string) returns (ok: bool)
      modifies this
      ensures (State(), ok) == Upload(w, old(State()), p)
    {
      var b := w.attach(p);
      var version := if p in uploads then uploads[p] else 0;
      var key := Ask(w, b, Producer(p), Me(w, b));
      if !KnowsKey(w, b, Producer(p)) || !key.Key? {
        return false;
      }
      var mine := if b in cache then cache[b] else map[];
      cache := cache[b := mine[p := ReEncrypt(Ct(Producer(p), p, version, 0), key.from, key.to)]];
      uploads := uploads[p := version + 1];
      ok := true;
    }

    /** From the cache or from upstream, for whichever destination asks. */
    method ObtainFor(b: nat, destination: string, channel: string) returns (r: Reply)
      modifies this
      ensures (State(), r) == Obtain(w, old(State()), b, destination, channel)
      decreases b, 0
    {
      var pieces := SplitString(channel, "-");
      var p := pieces[0];
      var source := match w.upstream(b) case Some(u) => Me(w, u) case None => Producer(p);
      var mine := if b in cache then cache[b] else map[];
      var routes := if b in routing then routing[b] else [];
      if p in mine {
        return Found(mine[p]);
      }
      if channel in LastRoutes(routes, destination) {
        return Failed;
      }
      var key := Ask(w, b, source, Me(w, b));
      if key.Raised? {
        return Failed;
      }
      if w.upstream(b).None? {
        return NotFound;
      }
      if w.upstream(b).value >= b {
        return Failed;
      }
      r := ReEncryptedCipherTextToBroker(w.upstream(b).value, w.name(b), channel);
      if !r.Found? {
        return;
      }
      r := Convert(KnowsKey(w, b, source), key, r.ct);
      if !r.Found? {
        return Failed;
      }
      mine := if b in cache then cache[b] else map[];
      cache := cache[b := mine[p := r.ct]];
    }

    method ReEncryptedCipherTextToBroker(b: nat, down: string, channel: string) returns (r: Reply)
      modifies this
      ensures (State(), r) == Fetch(w, old(State()), b, down, channel)
      decreases b, 1
    {
      r := ObtainFor(b, down, channel);
      if r.Found? {
        var pieces := SplitString(channel, "-");
        var source := match w.upstream(b) case Some(u) => Me(w, u) case None => Producer(pieces[0]);
        var routes := if b in routing then routing[b] else [];
        routing := routing[b := routes + [Route(channel, source.name, down,
            if w.upstream(b).None? then "source" else "")]];
      }
    }

    method CipherTextToConsumer(b: nat, consumer: string, channel: string) returns (r: Reply)
      modifies this
      ensures (State(), r) == Consume(w, old(State()), b, consumer, channel)
    {
      var pieces := SplitString(channel, "-");
      if |pieces| < 2 || pieces[1] != consumer {
        return Failed;
      }
      var p := pieces[0];
      var source := match w.upstream(b) case Some(u) => Me(w, u) case None => Producer(p);
      var key := Ask(w, b, source, Me(w, b));
      if key.Raised? {
        return Failed;
      }
      r := ObtainFor(b, consumer, channel);
      if r.Failed? {
        return;
      }
      key := Ask(w, b, Me(w, b), Consumer(consumer));
      if key.Raised? {
        return Failed;
      }
      if r.Found? {
        var routes := if b in routing then routing[b] else [];
        routing := routing[b := routes + [Route(channel, source.name, consumer,
            if w.upstream(b).None? then "source" else "")]];
        r := Convert(KnowsKey(w, b, Me(w, b)), key, r.ct);
      }
    }
  }

  // ---- what is invariant ----

  /** b is d brokers below a. */
  predicate Below(w: World, b: nat, a: nat, d: nat)
    decreases d
  {
    if d == 0 then b == a
    else match w.upstream(b) case Some(u) => u < b && Below(w, u, a, d - 1) case None => false
  }

  /** Upstream is always a smaller number, and every broker is on the access map it needs to be on. */
  ghost predicate Sound(w: World) {
    && (forall b: nat :: w.upstream(b).Some? ==> w.upstream(b).value < b)
    && (forall b: nat, sender :: Ask(w, b, sender, Me(w, b)) != NullKey)
  }

  /** b can re-encrypt what u holds. */
  predicate Linked(w: World, b: nat, u: nat) {
    KnowsKey(w, b, Me(w, u)) && Ask(w, b, Me(w, u), Me(w, b)) == Key(Me(w, u), Me(w, b))
  }

  /** What b has cached of producer p is under b's key and carries one of p's uploads, the latest one
      at the broker p is attached to; anywhere else it is cached upstream as well, in a version that is
      no older. */
  ghost predicate EntryOk(w: World, net: Net, b: nat, p: string) {
    p in CacheOf(net, b) &&
    var ct := CacheOf(net, b)[p];
    && ct.Ct? && ct.owner == Me(w, b) && ct.producer == p && ct.version < Uploads(net, p)
    && 1 <= ct.hops && Below(w, b, w.attach(p), ct.hops - 1)
    && (if b == w.attach(p) then ct.version == Uploads(net, p) - 1
        else match w.upstream(b)
             case None => false
             case Some(u) =>
               u < b && Linked(w, b, u) && p in CacheOf(net, u) && CacheOf(net, u)[p].Ct?
                   && ct.version <= CacheOf(net, u)[p].version)
  }

  ghost predicate CachesOk(w: World, net: Net) {
    forall b: nat, p | p in CacheOf(net, b) :: EntryOk(w, net, b, p)
  }

  /** Every routed channel has its producer in the cache. */
  ghost predicate RoutesOk(net: Net) {
    forall b: nat, r | r in RoutingOf(net, b) :: ProducerOf(r.channel) in CacheOf(net, b)
  }

  /** What was uploaded is cached where its producer is attached. */
  ghost predicate UploadsKept(w: World, net: Net) {
    forall p: string | 0 < Uploads(net, p) :: p in CacheOf(net, w.attach(p))
  }

  ghost predicate Inv(w: World, net: Net) { CachesOk(w, net) && RoutesOk(net) && UploadsKept(w, net) }

  /** Nothing cached is lost or changed, and nothing at all changes beyond broker `upto`. */
  ghost predicate Grows(net: Net, net': Net, upto: nat) {
    && net'.uploads == net.uploads
    && (forall b: nat, p | p in CacheOf(net, b) :: p in CacheOf(net', b) && CacheOf(net', b)[p] == CacheOf(net, b)[p])
    && (forall b: nat | upto < b :: CacheOf(net', b) == CacheOf(net, b))
  }

  lemma {:induction false} RecordInv(w: World, net: Net, b: nat, r: Route)
    requires Inv(w, net) && ProducerOf(r.channel) in CacheOf(net, b)
    ensures Inv(w, Record(net, b, r)) && Grows(net, Record(net, b, r), b)
  {
    hide ProducerOf, EntryOk;
    var next := Record(net, b, r);
    assert forall x: nat :: CacheOf(next, x) == CacheOf(net, x);
    forall x: nat, p | p in CacheOf(next, x) ensures EntryOk(w, next, x, p) {
      EntrySame(w, net, next, x, p);
    }
  }

  lemma {:induction false} EntrySame(w: World, net: Net, next: Net, b: nat, p: string)
    requires EntryOk(w, net, b, p) && next.uploads == net.uploads
    requires p in CacheOf(next, b) && CacheOf(next, b)[p] == CacheOf(net, b)[p]
    requires forall u: nat | p in CacheOf(net, u) :: p in CacheOf(next, u) && CacheOf(next, u)[p] == CacheOf(net, u)[p]
    ensures EntryOk(w, next, b, p)
  {
    hide CacheOf, Linked, Below;
  }

  lemma {:induction false} NewEntry(w: World, net: Net, b: nat, u: nat, p: string)
    requires EntryOk(w, net, u, p) && w.upstream(b) == Some(u) && u < b && Linked(w, b, u) && b != w.attach(p)
    ensures EntryOk(w, Put(net, b, p, ReEncrypt(CacheOf(net, u)[p], Me(w, u), Me(w, b))), b, p)
  {
    hide Linked;
    assert Below(w, b, w.attach(p), CacheOf(net, u)[p].hops);
  }

  lemma {:induction false} PutInv(w: World, net: Net, b: nat, u: nat, p: string)
    requires Sound(w) && Inv(w, net) && p !in CacheOf(net, b) && p in CacheOf(net, u) && w.upstream(b) == Some(u)
             && Linked(w, b, u)
    requires b != w.attach(p)
    ensures var ct := ReEncrypt(CacheOf(net, u)[p], Me(w, u), Me(w, b));
            Inv(w, Put(net, b, p, ct)) && Grows(net, Put(net, b, p, ct), b)
  {
    hide ProducerOf, Linked, EntryOk, ReEncrypt;
    var ct := ReEncrypt(CacheOf(net, u)[p], Me(w, u), Me(w, b));
    var next := Put(net, b, p, ct);
    assert EntryOk(w, net, u, p);
    assert forall x: nat :: CacheOf(next, x) == if x == b then CacheOf(net, b)[p := ct] else CacheOf(net, x);
    NewEntry(w, net, b, u, p);
    forall x: nat, q | q in CacheOf(next, x) ensures EntryOk(w, next, x, q) {
      if x != b || q != p { EntrySame(w, net, next, x, q); }
    }
  }

  // ---- fetching keeps it ----

  lemma {:induction false} AskAnswers(w: World, b: nat, sender: Who, receiver: Who)
    ensures Ask(w, b, sender, receiver).Key? ==> Ask(w, b, sender, receiver) == Key(sender, receiver)
  {}

  lemma {:induction false} BelowIsLarger(w: World, b: nat, a: nat, d: nat)
    requires Below(w, b, a, d)
    ensures a <= b
    decreases d
  {
    if d != 0 { BelowIsLarger(w, w.upstream(b).value, a, d - 1); }
  }

  lemma {:induction false} GrowsOn(a: Net, b: Net, c: Net, upto: nat, upto': nat)
    requires Grows(a, b, upto) && Grows(b, c, upto') && upto <= upto'
    ensures Grows(a, c, upto')
  {}

  /** What a broker obtains is what it has cached afterwards. */
  ghost predicate Obtained(w: World, net: Net, b: nat, channel: string, out: (Net, Reply)) {
    && Inv(w, out.0) && Grows(net, out.0, b)
    && (out.1.Found? ==> ProducerOf(channel) in CacheOf(out.0, b) && CacheOf(out.0, b)[ProducerOf(channel)] == out.1.ct)
  }

  lemma {:induction false} FetchInv(w: World, net: Net, b: nat, down: string, channel: string)
    requires Sound(w) && Inv(w, net)
    ensures Obtained(w, net, b, channel, Fetch(w, net, b, down, channel))
    decreases b, 1
  {
    hide Inv, Grows, ProducerOf, Obtain;
    ObtainInv(w, net, b, down, channel);
    var (net', r) := Obtain(w, net, b, down, channel);
    if r.Found? {
      RecordInv(w, net', b, RouteOf(w, b, channel, down));
      GrowsOn(net, net', Record(net', b, RouteOf(w, b, channel, down)), b, b);
      assert CacheOf(Record(net', b, RouteOf(w, b, channel, down)), b) == CacheOf(net', b);
    }
  }

  lemma {:induction false} ObtainInv(w: World, net: Net, b: nat, destination: string, channel: string)
    requires Sound(w) && Inv(w, net)
    ensures Obtained(w, net, b, channel, Obtain(w, net, b, destination, channel))
    decreases b, 0
  {
    hide Inv, Grows, ProducerOf, Fetch, Routed, RouteOf, CacheOf, Put, Ask, KnowsKey, ReEncrypt;
    var p := ProducerOf(channel);
    var out := Obtain(w, net, b, destination, channel);
    NoChange(net, b);
    if p !in CacheOf(net, b) && w.upstream(b).Some? {
      var u := w.upstream(b).value;
      FetchInv(w, net, u, w.name(b), channel);
      var (net', r) := Fetch(w, net, u, w.name(b), channel);
      AskAnswers(w, b, Me(w, u), Me(w, b));
      WiderGrows(net, net', u, b);
      if out.1.Found? {
        FreshPut(w, net, net', b, u, p);
      }
    }
  }

  lemma {:induction false} NoChange(net: Net, b: nat)
    ensures Grows(net, net, b)
  {}

  lemma {:induction false} WiderGrows(a: Net, b: Net, upto: nat, upto': nat)
    requires Grows(a, b, upto) && upto <= upto'
    ensures Grows(a, b, upto')
  {}

  lemma {:induction false} Beyond(a: Net, b: Net, upto: nat, x: nat)
    requires Grows(a, b, upto) && upto < x
    ensures CacheOf(b, x) == CacheOf(a, x)
  {}

  lemma {:induction false} EntryBelow(w: World, net: Net, u: nat, p: string)
    requires EntryOk(w, net, u, p)
    ensures w.attach(p) <= u
  {
    hide Linked, CacheOf, Below;
    BelowIsLarger(w, u, w.attach(p), CacheOf(net, u)[p].hops - 1);
  }

  lemma {:induction false} NotAttached(w: World, net: Net, b: nat, u: nat, p: string)
    requires CachesOk(w, net) && p in CacheOf(net, u) && u < b
    ensures b != w.attach(p)
  {
    hide EntryOk;
    assert EntryOk(w, net, u, p);
    EntryBelow(w, net, u, p);
  }

  lemma {:induction false} PutIs(net: Net, b: nat, p: string, ct: Ciphertext)
    ensures p in CacheOf(Put(net, b, p, ct), b) && CacheOf(Put(net, b, p, ct), b)[p] == ct
  {}

  /** After a fetch from upstream the broker can cache the result. */
  lemma {:induction false} FreshPut(w: World, net: Net, net': Net, b: nat, u: nat, p: string)
    requires Sound(w) && Inv(w, net') && Grows(net, net', u) && w.upstream(b) == Some(u) && Linked(w, b, u)
    requires p in CacheOf(net', u) && p !in CacheOf(net, b)
    ensures var ct := ReEncrypt(CacheOf(net', u)[p], Me(w, u), Me(w, b)); var next := Put(net', b, p, ct);
            Inv(w, next) && Grows(net, next, b) && p in CacheOf(next, b) && CacheOf(next, b)[p] == ct
  {
    var ct := ReEncrypt(CacheOf(net', u)[p], Me(w, u), Me(w, b));
    hide Linked, ReEncrypt, RoutesOk, CachesOk, CacheOf, Put, Grows;
    Beyond(net, net', u, b);
    NotAttached(w, net', b, u, p);
    PutInv(w, net', b, u, p);
    GrowsOn(net, net', Put(net', b, p, ct), u, b);
    PutIs(net', b, p, ct);
  }

  // ---- the operations, over whole runs ----

  datatype Op = DoUpload(p: string) | DoFetch(b: nat, down: string, channel: string) | DoConsume(b: nat,
      consumer: string, channel: string)

  function Apply(w: World, net: Net, op: Op): Net {
    match op
    case DoUpload(p) => Upload(w, net, p).0
    case DoFetch(b, down, channel) => Fetch(w, net, b, down, channel).0
    case DoConsume(b, consumer, channel) => Consume(w, net, b, consumer, channel).0
  }

  function RunOps(w: World, net: Net, ops: seq<Op>): Net
    decreases |ops|
  {
    if |ops| == 0 then net else RunOps(w, Apply(w, net, ops[0]), ops[1..])
  }

  /** What an accepted upload leaves. */
  lemma {:induction false} UploadIs(w: World, net: Net, p: string)
    requires Upload(w, net, p).1
    ensures var b, next := w.attach(p), Upload(w, net, p).0;
            && next.routing == net.routing && next.uploads == net.uploads[p := Uploads(net, p) + 1]
            && forall x: nat :: CacheOf(next, x)
                 == if x == b then CacheOf(net, x)[p := Ct(Me(w, b), p, Uploads(net, p), 1)] else CacheOf(net, x)
  {
    hide KnowsKey, Ask;
    AskAnswers(w, w.attach(p), Producer(p), Me(w, w.attach(p)));
  }

  lemma {:induction false} UploadInv(w: World, net: Net, p: string)
    requires Sound(w) && Inv(w, net)
    ensures Inv(w, Upload(w, net, p).0)
  {
    hide ProducerOf, EntryOk, Sound;
    var b, next := w.attach(p), Upload(w, net, p).0;
    if Upload(w, net, p).1 {
      UploadIs(w, net, p);
      hide Upload;
      var ct := Ct(Me(w, b), p, Uploads(net, p), 1);
      forall x: nat, q | q in CacheOf(next, x) ensures EntryOk(w, next, x, q) {
        if x != b || q != p { OlderEntry(w, net, next, x, q, p, ct); } else { NewestEntry(w, next, p, ct); }
      }
    }
  }

  lemma {:induction false} NewestEntry(w: World, next: Net, p: string, ct: Ciphertext)
    requires p in CacheOf(next, w.attach(p)) && CacheOf(next, w.attach(p))[p] == ct && 0 < Uploads(next, p)
    requires ct == Ct(Me(w, w.attach(p)), p, Uploads(next, p) - 1, 1)
    ensures EntryOk(w, next, w.attach(p), p)
  {}

  /** The other entries stand: the new version is newer than all that was cached of the producer. */
  lemma {:induction false} OlderEntry(w: World, net: Net, next: Net, x: nat, q: string, p: string, ct: Ciphertext)
    requires EntryOk(w, net, x, q) && next.uploads == net.uploads[p := Uploads(net, p) + 1]
    requires ct == Ct(Me(w, w.attach(p)), p, Uploads(net, p), 1) && (x != w.attach(p) || q != p)
    requires forall y: nat :: CacheOf(next, y) == if y == w.attach(p) then CacheOf(net, y)[p := ct] else CacheOf(net, y)
    ensures EntryOk(w, next, x, q)
  {
    hide CacheOf, Linked, Below, Me;
  }

  lemma {:induction false} ConsumeInv(w: World, net: Net, b: nat, consumer: string, channel: string)
    requires Sound(w) && Inv(w, net)
    ensures Inv(w, Consume(w, net, b, consumer, channel).0)
  {
    hide Inv, ProducerOf, ConsumerOf, Obtain, Grows, Ask, KnowsKey, Convert;
    ObtainInv(w, net, b, consumer, channel);
    var (net', r) := Obtain(w, net, b, consumer, channel);
    if r.Found? { RecordInv(w, net', b, RouteOf(w, b, channel, consumer)); }
  }

  /** Whatever the producers upload and whoever fetches, in whatever order, the invariant holds. */
  lemma {:induction false} EveryRunKeeps(w: World, net: Net, ops: seq<Op>)
    requires Sound(w) && Inv(w, net)
    ensures Inv(w, RunOps(w, net, ops))
    decreases |ops|
  {
    if |ops| != 0 {
      hide Inv, Fetch, Upload, Consume;
      match ops[0] {
        case DoUpload(p) => UploadInv(w, net, p);
        case DoFetch(b, down, channel) => FetchInv(w, net, b, down, channel);
        case DoConsume(b, consumer, channel) => ConsumeInv(w, net, b, consumer, channel);
      }
      EveryRunKeeps(w, Apply(w, net, ops[0]), ops[1..]);
    }
  }

  lemma {:induction false} StartInv(w: World)
    ensures Inv(w, Net(map[], map[], map[]))
  {}

  // ---- what a consumer gets ----

  lemma {:induction false} GotEntry(w: World, net: Net, b: nat, p: string)
    requires Inv(w, net) && p in CacheOf(net, b)
    ensures EntryOk(w, net, b, p)
  {}

  lemma {:induction false} SameDistance(w: World, b: nat, a: nat, d: nat, e: nat)
    requires Below(w, b, a, d) && Below(w, b, a, e)
    ensures d == e
    decreases d
  {
    if d != 0 && e != 0 {
      SameDistance(w, w.upstream(b).value, a, d - 1, e - 1);
    } else if d != 0 {
      BelowIsLarger(w, w.upstream(b).value, a, d - 1);
    } else if e != 0 {
      BelowIsLarger(w, w.upstream(b).value, a, e - 1);
    }
  }

  lemma {:induction false} StepUp(w: World, net: Net, b: nat, a: nat, d: nat, p: string)
    requires Inv(w, net) && p in CacheOf(net, b) && Below(w, b, a, d) && 0 < d && d < CacheOf(net, b)[p].hops
    requires EntryOk(w, net, b, p)
    ensures var u := w.upstream(b).value;
            && w.upstream(b).Some? && Below(w, u, a, d - 1) && p in CacheOf(net, u) && CacheOf(net, u)[p].Ct?
            && CacheOf(net, u)[p].hops == CacheOf(net, b)[p].hops - 1 && CacheOf(net, b)[p].version <= CacheOf(net,
                u)[p].version
  {
    hide Inv, Linked;
    var u := w.upstream(b).value;
    BelowIsLarger(w, u, a, d - 1);
    assert Below(w, u, w.attach(p), CacheOf(net, b)[p].hops - 2);
    BelowIsLarger(w, u, w.attach(p), CacheOf(net, b)[p].hops - 2);
    GotEntry(w, net, u, p);
    SameDistance(w, u, w.attach(p), CacheOf(net, u)[p].hops - 1, CacheOf(net, b)[p].hops - 2);
  }

  lemma {:induction false} BelowBelow(w: World, b: nat, a: nat, d: nat, c: nat, e: nat)
    requires Below(w, b, a, d) && Below(w, a, c, e)
    ensures Below(w, b, c, d + e)
    decreases d
  {
    if d != 0 { BelowBelow(w, w.upstream(b).value, a, d - 1, c, e); }
  }

  /** A producer cached at a broker is cached at every broker a between that one and the one it is
      attached to, in versions that never get older on the way up. */
  lemma {:induction false} NewerUpstream(w: World, net: Net, b: nat, a: nat, d: nat, e: nat, p: string)
    requires Inv(w, net) && p in CacheOf(net, b) && Below(w, b, a, d) && Below(w, a, w.attach(p), e)
    ensures p in CacheOf(net, a) && CacheOf(net, a)[p].Ct? && CacheOf(net, b)[p].Ct?
             && CacheOf(net, b)[p].version <= CacheOf(net, a)[p].version
    decreases d
  {
    hide Inv, Linked, Below;
    GotEntry(w, net, b, p);
    if d == 0 {
      assert b == a by { AtZero(w, b, a); }
    } else {
      BelowBelow(w, b, a, d, w.attach(p), e);
      SameDistance(w, b, w.attach(p), d + e, CacheOf(net, b)[p].hops - 1);
      StepUp(w, net, b, a, d, p);
      NewerUpstream(w, net, w.upstream(b).value, a, d - 1, e, p);
    }
  }

  lemma {:induction false} AtZero(w: World, b: nat, a: nat)
    requires Below(w, b, a, 0)
    ensures b == a
  {}

  // ---- with one upload the caches do not show ----

  /** The brokers right after the first upload of p, before anybody fetched anything. */
  function Bare(w: World, p: string): Net {
    Net(map[w.attach(p) := map[p := Ct(Me(w, w.attach(p)), p, 0, 1)]], map[], map[p := 1])
  }

  lemma {:induction false} BareCached(w: World, p: string, b: nat)
    ensures p in CacheOf(Bare(w, p), b) <==> b == w.attach(p)
    ensures RoutingOf(Bare(w, p), b) == []
  {}

  /** Where the ciphertext is cached, the fetch without caches comes to the same. */
  lemma {:induction false} CachedIsFetched(w: World, net: Net, b: nat, destination: string, channel: string)
    requires Sound(w) && Inv(w, net) && Uploads(net, ProducerOf(channel)) == 1 && ProducerOf(channel) in CacheOf(net, b)
    ensures Obtain(w, Bare(w, ProducerOf(channel)), b, destination, channel).1
            == Found(CacheOf(net, b)[ProducerOf(channel)])
    decreases b
  {
    hide Inv, ProducerOf, KnowsKey, Ask, Below, Routed;
    var p := ProducerOf(channel);
    GotEntry(w, net, b, p);
    BareCached(w, p, b);
    var ct := CacheOf(net, b)[p];
    if b == w.attach(p) {
      AtAttach(w, b, ct.hops - 1);
    } else {
      var u := w.upstream(b).value;
      CachedIsFetched(w, net, u, w.name(b), channel);
      GotEntry(w, net, u, p);
      OneFurther(w, b, u, w.attach(p), ct.hops - 1, CacheOf(net, u)[p].hops - 1);
      NotRouted(w, p, b, channel, destination);
    }
  }

  lemma {:induction false} NotRouted(w: World, p: string, b: nat, channel: string, destination: string)
    ensures !Routed(Bare(w, p), b, channel, destination)
  {}

  lemma {:induction false} AtAttach(w: World, b: nat, d: nat)
    requires Below(w, b, b, d)
    ensures d == 0
  {
    SameDistance(w, b, b, d, 0);
  }

  lemma {:induction false} OneFurther(w: World, b: nat, u: nat, a: nat, d: nat, e: nat)
    requires w.upstream(b) == Some(u) && u < b && Below(w, b, a, d) && Below(w, u, a, e)
    ensures d == e + 1
  {
    SameDistance(w, b, a, d, e + 1);
  }

  lemma {:induction false} ObtainedSame(w: World, net: Net, b: nat, destination: string, channel: string)
    requires Sound(w) && Inv(w, net) && Uploads(net, ProducerOf(channel)) == 1
    requires ProducerOf(channel) in CacheOf(net, w.attach(ProducerOf(channel)))
    ensures Obtain(w, net, b, destination, channel).1
            == Obtain(w, Bare(w, ProducerOf(channel)), b, destination, channel).1
    decreases b
  {
    hide Inv, ProducerOf, KnowsKey, Ask, Below, Routed, CacheOf;
    var p := ProducerOf(channel);
    BareCached(w, p, b);
    if p in CacheOf(net, b) {
      CachedIsFetched(w, net, b, destination, channel);
    } else {
      NotRouted(w, p, b, channel, destination);
      RoutedIsCached(w, net, b, channel, destination);
      if w.upstream(b).Some? {
        ObtainedSame(w, net, w.upstream(b).value, w.name(b), channel);
      }
    }
  }

  lemma {:induction false} RoutedIsCached(w: World, net: Net, b: nat, channel: string, destination: string)
    requires Inv(w, net)
    ensures Routed(net, b, channel, destination) ==> ProducerOf(channel) in CacheOf(net, b)
  {
    hide CachesOk, ProducerOf;
    if Routed(net, b, channel, destination) {
      var i := KeptIsLast(RoutingOf(net, b), destination, channel);
      assert RoutingOf(net, b)[i] in RoutingOf(net, b);
    }
  }

  /** If a producer has uploaded once, a consumer gets the same answer whatever has been fetched and
      cached before: the answer of the recursion up to the broker the producer is attached to. */
  lemma {:induction false} CachesDoNotShow(w: World, net: Net, b: nat, consumer: string, channel: string)
    requires Sound(w) && Inv(w, net) && Uploads(net, ProducerOf(channel)) == 1
    ensures Consume(w, net, b, consumer, channel).1 == Consume(w, Bare(w, ProducerOf(channel)), b, consumer, channel).1
  {
    hide CachesOk, RoutesOk, ProducerOf, KnowsKey, Ask, Obtain;
    ObtainedSame(w, net, b, consumer, channel);
  }

  // ---- delivery ----

  /** Every broker from b up to a can re-encrypt what its upstream broker holds. */
  predicate PathLinked(w: World, b: nat, a: nat, d: nat)
    decreases d
  {
    if d == 0 then b == a
    else match w.upstream(b) case Some(u) => u < b && Linked(w, b, u) && PathLinked(w, u, a, d - 1) case None => false
  }

  /** What is cached at b came along a linked path. */
  lemma {:induction false} CachedIsLinked(w: World, net: Net, b: nat, p: string)
    requires Inv(w, net) && p in CacheOf(net, b)
    ensures CacheOf(net, b)[p].Ct? && 1 <= CacheOf(net, b)[p].hops
            && PathLinked(w, b, w.attach(p), CacheOf(net, b)[p].hops - 1)
    decreases b
  {
    hide Inv, Linked;
    GotEntry(w, net, b, p);
    if b == w.attach(p) {
      AtAttach(w, b, CacheOf(net, b)[p].hops - 1);
    } else {
      var u := w.upstream(b).value;
      CachedIsLinked(w, net, u, p);
      GotEntry(w, net, u, p);
      OneFurther(w, b, u, w.attach(p), CacheOf(net, b)[p].hops - 1, CacheOf(net, u)[p].hops - 1);
    }
  }

  /** There is a linked path from b up to the broker the producer is attached to. */
  ghost predicate Connected(w: World, b: nat, p: string) { exists d: nat :: PathLinked(w, b, w.attach(p), d) }

  lemma {:induction false} ConnectedUp(w: World, b: nat, p: string)
    requires b != w.attach(p)
    ensures Connected(w, b, p) <==>
            w.upstream(b).Some? && w.upstream(b).value < b && Linked(w, b, w.upstream(b).value)
            && Connected(w, w.upstream(b).value, p)
  {
    hide Linked;
    if w.upstream(b).Some? {
      var u := w.upstream(b).value;
      if u < b && Linked(w, b, u) && Connected(w, u, p) {
        var d: nat :| PathLinked(w, u, w.attach(p), d);
        assert PathLinked(w, b, w.attach(p), d + 1);
      }
      if Connected(w, b, p) {
        var d: nat :| PathLinked(w, b, w.attach(p), d);
        assert PathLinked(w, u, w.attach(p), d - 1);
      }
    }
  }

  lemma {:induction false} AttachedIsConnected(w: World, p: string)
    ensures Connected(w, w.attach(p), p)
  {
    assert PathLinked(w, w.attach(p), w.attach(p), 0);
  }

  /** A broker obtains the producer's ciphertext if and only if there is an upload and a linked path. */
  lemma {:induction false} ObtainedIff(w: World, net: Net, b: nat, destination: string, channel: string)
    requires Sound(w) && Inv(w, net)
    ensures Obtain(w, net, b, destination, channel).1.Found?
            <==> 0 < Uploads(net, ProducerOf(channel)) && Connected(w, b, ProducerOf(channel))
    decreases b
  {
    hide CachesOk, RoutesOk, ProducerOf, KnowsKey, Ask, Routed, CacheOf, Connected, PathLinked;
    var p := ProducerOf(channel);
    if p in CacheOf(net, b) {
      CachedIsLinked(w, net, b, p);
      GotEntry(w, net, b, p);
      assert Connected(w, b, p) by { OnPath(w, b, p, CacheOf(net, b)[p].hops - 1); }
    } else {
      RoutedIsCached(w, net, b, channel, destination);
      if b == w.attach(p) {
        NothingUpstream(w, net, b, destination, channel);
      } else {
        ConnectedUp(w, b, p);
        if w.upstream(b).Some? {
          var u := w.upstream(b).value;
          AskAnswers(w, b, Me(w, u), Me(w, b));
          ObtainedIff(w, net, u, w.name(b), channel);
        }
      }
    }
  }

  lemma {:induction false} OnPath(w: World, b: nat, p: string, d: nat)
    requires PathLinked(w, b, w.attach(p), d)
    ensures Connected(w, b, p)
  {}

  /** Where the producer is attached and has uploaded nothing, upstream has nothing either. */
  lemma {:induction false} NothingUpstream(w: World, net: Net, b: nat, destination: string, channel: string)
    requires Sound(w) && Inv(w, net) && b == w.attach(ProducerOf(channel)) && ProducerOf(channel) !in CacheOf(net, b)
    ensures Uploads(net, ProducerOf(channel)) == 0 && !Obtain(w, net, b, destination, channel).1.Found?
  {
    hide CachesOk, RoutesOk, ProducerOf, Obtain;
    ObtainInv(w, net, b, destination, channel);
    if Obtain(w, net, b, destination, channel).1.Found? {
      var net' := Obtain(w, net, b, destination, channel).0;
      GotEntry(w, net', b, ProducerOf(channel));
    }
  }

  /** What a consumer is told: an error unless the channel names it and the keys from upstream to b and
      from b to it can be had. */
  predicate Served(w: World, b: nat, consumer: string, channel: string) {
    && ConsumerOf(channel) == Some(consumer)
    && !Ask(w, b, Upstream(w, b, channel), Me(w, b)).Raised?
    && KnowsKey(w, b, Me(w, b))
    && (Ask(w, b, Me(w, b), Consumer(consumer)).Key? || Ask(w, b, Me(w, b), Consumer(consumer)).NullKey?)
  }

  /** Who can tell b the public key: its own key server, or the one above but for producers. */
  predicate Known(w: World, b: nat, k: Who) {
    k in w.zone(b).public || (!k.Producer? && w.above(b).Some? && k in w.above(b).value.public)
  }

  /** The two conditions in terms of what the key servers hold. */
  lemma {:induction false} ServedIff(w: World, b: nat, u: nat, consumer: string, channel: string)
    ensures Linked(w, b, u) <==>
              && Known(w, b, Me(w, u)) && Held(w.zone(b), w.above(b), Me(w, u)) && Me(w, b) in w.zone(b).public
              && w.name(b) in MapOf(w.zone(b), w.above(b), Me(w, u))
    ensures Served(w, b, consumer, channel) <==>
              var up := match w.upstream(b) case Some(u) => Me(w, u) case None => Producer(ProducerOf(channel));
              var here, receiver := Me(w, b) in w.zone(b).private, Consumer(consumer);
              && ConsumerOf(channel) == Some(consumer) && Known(w, b, Me(w, b))
              && (if up in w.zone(b).private then Me(w, b) in w.zone(b).public || w.name(b) !in w.zone(b).accessMap
                  else up.Producer? || (Me(w, b) in w.zone(b).public && w.above(b).Some?))
              && Held(w.zone(b), w.above(b), Me(w, b))
              && (receiver in w.zone(b).public || (here && consumer !in w.zone(b).accessMap))
  {
    hide ProducerOf, ConsumerOf;
  }

  function FromStart(w: World, ops: seq<Op>): Net { RunOps(w, Net(map[], map[], map[]), ops) }

  /** After any uploads and fetches: a consumer is given a ciphertext if and only if it is served, the
      producer has uploaded, and a linked path leads from b to the producer's broker. */
  lemma {:induction false} DeliveredIff(w: World, ops: seq<Op>, b: nat, consumer: string, channel: string)
    requires Sound(w)
    ensures Consume(w, FromStart(w, ops), b, consumer, channel).1.Found?
            <==> Served(w, b, consumer, channel) && 0 < Uploads(FromStart(w, ops), ProducerOf(channel))
                 && Connected(w, b, ProducerOf(channel))
  {
    hide Inv, ProducerOf, ConsumerOf, Obtain, Ask, KnowsKey, Connected, RunOps, Sound;
    StartInv(w);
    EveryRunKeeps(w, Net(map[], map[], map[]), ops);
    ObtainedIff(w, FromStart(w, ops), b, consumer, channel);
  }

  /** And then, d brokers below the producer's: a consumer that is granted a key is given one of the
      producer's uploads under its own key, re-encrypted d + 2 times: behind d + 1 brokers, once for each
      and once for the consumer. A consumer that is not granted one is given it under b's key. */
  lemma {:induction false} Delivers(w: World, ops: seq<Op>, b: nat, d: nat, consumer: string, channel: string)
    requires Sound(w) && Served(w, b, consumer, channel)
    requires 0 < Uploads(FromStart(w, ops), ProducerOf(channel)) && PathLinked(w, b, w.attach(ProducerOf(channel)), d)
    ensures var r := Consume(w, FromStart(w, ops), b, consumer, channel).1; var p := ProducerOf(channel);
            && r.Found? && r.ct.Ct? && r.ct.version < Uploads(FromStart(w, ops), p)
            && r.ct == if Ask(w, b, Me(w, b), Consumer(consumer)).Key?
                       then Ct(Consumer(consumer), p, r.ct.version, d + 2) else Ct(Me(w, b), p, r.ct.version, d + 1)
  {
    hide Inv, ProducerOf, ConsumerOf, Obtain, Ask, KnowsKey, RunOps, Sound, Below, PathLinked, Connected;
    var net, p := FromStart(w, ops), ProducerOf(channel);
    StartInv(w);
    EveryRunKeeps(w, Net(map[], map[], map[]), ops);
    OnPath(w, b, p, d);
    ObtainedIff(w, net, b, consumer, channel);
    ObtainInv(w, net, b, consumer, channel);
    var (net', r) := Obtain(w, net, b, consumer, channel);
    GotEntry(w, net', b, p);
    LinkedIsBelow(w, b, w.attach(p), d);
    SameDistance(w, b, w.attach(p), d, r.ct.hops - 1);
    AskAnswers(w, b, Me(w, b), Consumer(consumer));
    assert r.ct.version < Uploads(net, p);
  }

  lemma {:induction false} LinkedIsBelow(w: World, b: nat, a: nat, d: nat)
    requires PathLinked(w, b, a, d)
    ensures Below(w, b, a, d)
    decreases d
  {
    if d != 0 { LinkedIsBelow(w, w.upstream(b).value, a, d - 1); }
  }

  // ---- which upload it is ----

  /** How many of the operations are uploads by p. */
  function CountUploads(ops: seq<Op>, p: string): nat {
    if |ops| == 0 then 0 else (if ops[0] == DoUpload(p) then 1 else 0) + CountUploads(ops[1..], p)
  }

  /** p's keys are with the key server of its broker, and the broker is registered there and on its map. */
  predicate Registered(w: World, p: string) {
    var b := w.attach(p);
    && Producer(p) in w.zone(b).private && Producer(p) in w.zone(b).public
    && Me(w, b) in w.zone(b).public && w.name(b) in w.zone(b).accessMap
  }

  lemma {:induction false} ObtainUploads(w: World, net: Net, b: nat, destination: string, channel: string)
    ensures Obtain(w, net, b, destination, channel).0.uploads == net.uploads
    ensures Fetch(w, net, b, destination, channel).0.uploads == net.uploads
    decreases b
  {
    hide Convert, KnowsKey, Ask, RouteOf, ProducerOf, Routed, CacheOf;
    if w.upstream(b).Some? && w.upstream(b).value < b {
      ObtainUploads(w, net, w.upstream(b).value, w.name(b), channel);
    }
  }

  lemma {:induction false} OpUploads(w: World, net: Net, op: Op, p: string)
    ensures Uploads(Apply(w, net, op), p) == Uploads(net, p) + if op == DoUpload(p) && Registered(w, p) then 1 else 0
  {
    hide Obtain, ProducerOf, ConsumerOf, Convert, RouteOf;
    match op
    case DoUpload(q) =>
    case DoFetch(b, down, channel) => ObtainUploads(w, net, b, down, channel);
    case DoConsume(b, consumer, channel) => ObtainUploads(w, net, b, consumer, channel);
  }

  lemma {:induction false} RunUploads(w: World, net: Net, ops: seq<Op>, p: string)
    ensures Uploads(RunOps(w, net, ops), p) == Uploads(net, p) + if Registered(w, p) then CountUploads(ops, p) else 0
    decreases |ops|
  {
    hide Apply, Registered;
    if |ops| != 0 {
      OpUploads(w, net, ops[0], p);
      RunUploads(w, Apply(w, net, ops[0]), ops[1..], p);
    }
  }

  /** Every upload by a registered producer is accepted, however often it has uploaded before and whatever
      else was requested; none by another one is. */
  lemma {:induction false} UploadsCounted(w: World, ops: seq<Op>, p: string)
    ensures Uploads(FromStart(w, ops), p) == if Registered(w, p) then CountUploads(ops, p) else 0
  {
    RunUploads(w, Net(map[], map[], map[]), ops, p);
  }

  /** A consumer at the broker the producer is attached to is given the last of its uploads, under its own
      key if it is granted one. */
  lemma {:induction false} LastUploadAtSource(w: World, ops: seq<Op>, consumer: string, channel: string)
    requires Sound(w) && Served(w, w.attach(ProducerOf(channel)), consumer, channel)
    requires Registered(w, ProducerOf(channel)) && CountUploads(ops, ProducerOf(channel)) != 0
    ensures var p := ProducerOf(channel); var b := w.attach(p);
            Consume(w, FromStart(w, ops), b, consumer, channel).1
            == Found(if Ask(w, b, Me(w, b), Consumer(consumer)).Key?
                     then Ct(Consumer(consumer), p, CountUploads(ops, p) - 1, 2)
                     else Ct(Me(w, b), p, CountUploads(ops, p) - 1, 1))
  {
    hide Inv, ProducerOf, ConsumerOf, Obtain, Ask, KnowsKey, RunOps, Sound, Registered, Consume, PathLinked,
        CountUploads;
    var p := ProducerOf(channel);
    var b, net := w.attach(p), FromStart(w, ops);
    StartInv(w);
    EveryRunKeeps(w, Net(map[], map[], map[]), ops);
    UploadsCounted(w, ops, p);
    AtItself(w, b);
    Delivers(w, ops, b, 0, consumer, channel);
    SourceVersion(w, net, b, consumer, channel);
  }

  lemma {:induction false} AtItself(w: World, b: nat)
    ensures PathLinked(w, b, b, 0)
  {}

  lemma {:induction false} SourceVersion(w: World, net: Net, b: nat, consumer: string, channel: string)
    requires Sound(w) && Inv(w, net) && b == w.attach(ProducerOf(channel))
    requires Consume(w, net, b, consumer, channel).1.Found?
    ensures var r := Consume(w, net, b, consumer, channel).1;
            r.ct.Ct? ==> r.ct.version == Uploads(net, ProducerOf(channel)) - 1
  {
    hide Inv, ProducerOf, ConsumerOf, Obtain, Ask, KnowsKey, Sound;
    ObtainInv(w, net, b, consumer, channel);
    GotEntry(w, Obtain(w, net, b, consumer, channel).0, b, ProducerOf(channel));
  }

  /** Any other broker keeps what it has cached of a producer for good: later uploads never reach those
      below it. */
  lemma {:induction false} CachedForGood(w: World, net: Net, ops: seq<Op>, b: nat, p: string)
    requires Sound(w) && Inv(w, net) && p in CacheOf(net, b) && b != w.attach(p)
    ensures p in CacheOf(RunOps(w, net, ops), b) && CacheOf(RunOps(w, net, ops), b)[p] == CacheOf(net, b)[p]
    decreases |ops|
  {
    hide Inv, Apply, CacheOf, Sound;
    if |ops| != 0 {
      OpKeepsCached(w, net, ops[0], b, p);
      EveryRunKeeps(w, net, [ops[0]]);
      OneOp(w, net, ops[0]);
      CachedForGood(w, Apply(w, net, ops[0]), ops[1..], b, p);
    }
  }

  lemma {:induction false} OpKeepsCached(w: World, net: Net, op: Op, b: nat, p: string)
    requires Sound(w) && Inv(w, net) && p in CacheOf(net, b) && b != w.attach(p)
    ensures p in CacheOf(Apply(w, net, op), b) && CacheOf(Apply(w, net, op), b)[p] == CacheOf(net, b)[p]
  {
    hide Inv, Obtain, ProducerOf, ConsumerOf, Convert, RouteOf, Ask, KnowsKey, Sound, Upload;
    match op
    case DoUpload(q) =>
      if Upload(w, net, q).1 { UploadIs(w, net, q); } else { RefusedIs(w, net, q); }
    case DoFetch(x, down, channel) => ObtainInv(w, net, x, down, channel);
    case DoConsume(x, consumer, channel) => ObtainInv(w, net, x, consumer, channel);
  }

  lemma {:induction false} RefusedIs(w: World, net: Net, p: string)
    requires !Upload(w, net, p).1
    ensures Upload(w, net, p).0 == net
  {
    hide KnowsKey, Ask;
  }

  // ---- what a fetch leaves in the caches ----

  /** A fetch by b gets as far as a, d brokers up: nobody before has the ciphertext, and all can ask for
      their keys. */
  predicate Reaches(w: World, net: Net, b: nat, a: nat, d: nat, channel: string)
    decreases d
  {
    if d == 0 then b == a
    else
      && ProducerOf(channel) !in CacheOf(net, b) && !Ask(w, b, Upstream(w, b, channel), Me(w, b)).Raised?
      && match w.upstream(b) case Some(u) => u < b && Reaches(w, net, u, a, d - 1, channel) case None => false
  }

  ghost predicate Visits(w: World, net: Net, b: nat, a: nat, channel: string) {
    exists d: nat :: Reaches(w, net, b, a, d, channel)
  }

  lemma {:induction false} VisitsUp(w: World, net: Net, b: nat, a: nat, channel: string)
    ensures var on := ProducerOf(channel) !in CacheOf(net, b) && !Ask(w, b, Upstream(w, b, channel), Me(w, b)).Raised?
                && w.upstream(b).Some? && w.upstream(b).value < b && Visits(w, net, w.upstream(b).value, a, channel);
            Visits(w, net, b, a, channel) <==> a == b || on
  {
    hide ProducerOf, Ask, CacheOf, Upstream;
    assert a == b ==> Reaches(w, net, b, a, 0, channel);
    if w.upstream(b).Some? {
      var u := w.upstream(b).value;
      forall d: nat | Reaches(w, net, b, a, d, channel) && a != b ensures Reaches(w, net, u, a, d - 1, channel) {}
      forall d: nat | Reaches(w, net, u, a, d, channel) ensures Reaches(w, net, b, a, d + 1, channel)
          <==> ProducerOf(channel) !in CacheOf(net, b) && !Ask(w, b, Upstream(w, b, channel), Me(w, b)).Raised?
               && u < b {}
    }
  }

  /** The producer is cached at a afterwards: it was before, or the fetch visits a, there is an upload,
      and a linked path leads from a to the producer's broker. */
  ghost predicate Leaves(w: World, net: Net, b: nat, a: nat, channel: string, next: Net) {
    var p := ProducerOf(channel);
    p in CacheOf(next, a)
    <==> p in CacheOf(net, a) || (Visits(w, net, b, a, channel) && 0 < Uploads(net, p) && Connected(w, a, p))
  }

  /** A fetch, whether it succeeds or not, leaves the ciphertext exactly there. */
  lemma {:induction false} ObtainLeaves(w: World, net: Net, b: nat, destination: string, channel: string, a: nat)
    requires Sound(w) && Inv(w, net)
    ensures Leaves(w, net, b, a, channel, Obtain(w, net, b, destination, channel).0)
    decreases b
  {
    hide Inv, ProducerOf, KnowsKey, Ask, Routed, Connected, Visits, Upstream, Uploads, Fetch;
    var p := ProducerOf(channel);
    VisitsUp(w, net, b, a, channel);
    SoundUp(w, b);
    ObtainedIff(w, net, b, destination, channel);
    ObtainInv(w, net, b, destination, channel);
    if p !in CacheOf(net, b) {
      RoutedIsCached(w, net, b, channel, destination);
      if w.upstream(b).Some? {
        ObtainLeaves(w, net, w.upstream(b).value, w.name(b), channel, a);
        FetchCaches(w, net, w.upstream(b).value, w.name(b), channel, a);
      }
    }
  }

  lemma {:induction false} FetchCaches(w: World, net: Net, b: nat, down: string, channel: string, a: nat)
    ensures CacheOf(Fetch(w, net, b, down, channel).0, a) == CacheOf(Obtain(w, net, b, down, channel).0, a)
  {}

  /** A copy made by a fetch is of what is cached one broker up. */
  ghost predicate CopyOfNext(w: World, net: Net, next: Net, a: nat, p: string) {
    p !in CacheOf(net, a) && p in CacheOf(next, a) ==>
      && w.upstream(a).Some? && p in CacheOf(next, w.upstream(a).value)
      && CacheOf(next, w.upstream(a).value)[p].Ct? && CacheOf(next, a)[p].Ct?
      && CacheOf(next, a)[p].version == CacheOf(next, w.upstream(a).value)[p].version
  }

  /** At other brokers than b its fetch leaves what the fetch one broker up leaves, or nothing at all. */
  lemma {:induction false} Elsewhere(w: World, net: Net, b: nat, u: nat, destination: string, channel: string)
    requires w.upstream(b) == Some(u) && u < b
    ensures var next, mid := Obtain(w, net, b, destination, channel).0, Obtain(w, net, u, w.name(b), channel).0;
            || (forall x: nat | x != b :: CacheOf(next, x) == CacheOf(net, x))
            || (forall x: nat | x != b :: CacheOf(next, x) == CacheOf(mid, x))
  {
    hide ProducerOf, KnowsKey, Ask, Routed, Fetch;
    forall x: nat ensures CacheOf(Fetch(w, net, u, w.name(b), channel).0, x)
        == CacheOf(Obtain(w, net, u, w.name(b), channel).0, x) {
      FetchCaches(w, net, u, w.name(b), channel, x);
    }
  }

  lemma {:induction false} OthersKeep(w: World, net: Net, b: nat, u: nat, destination: string, channel: string, a: nat)
    requires Sound(w) && Inv(w, net) && w.upstream(b) == Some(u) && u < b && a != b
    requires CopyOfNext(w, net, Obtain(w, net, u, w.name(b), channel).0, a, ProducerOf(channel))
    ensures CopyOfNext(w, net, Obtain(w, net, b, destination, channel).0, a, ProducerOf(channel))
  {
    Elsewhere(w, net, b, u, destination, channel);
    ObtainInv(w, net, u, w.name(b), channel);
    SoundUp(w, a);
    hide Inv, ProducerOf, Obtain, CacheOf, Sound, Grows;
    if u < a { Beyond(net, Obtain(w, net, u, w.name(b), channel).0, u, a); }
  }

  /** What b itself caches. */
  lemma {:induction false} OwnCopy(w: World, net: Net, b: nat, u: nat, destination: string, channel: string)
    requires Sound(w) && Inv(w, net) && w.upstream(b) == Some(u) && u < b && ProducerOf(channel) !in CacheOf(net, b)
    ensures CopyOfNext(w, net, Obtain(w, net, b, destination, channel).0, b, ProducerOf(channel))
  {
    FetchInv(w, net, u, w.name(b), channel);
    AskAnswers(w, b, Me(w, u), Me(w, b));
    var p, net' := ProducerOf(channel), Fetch(w, net, u, w.name(b), channel).0;
    if p in CacheOf(net', u) { GotEntry(w, net', u, p); }
    Beyond(net, net', u, b);
    hide Inv, ProducerOf, KnowsKey, Ask, Routed, Fetch, Linked, Below, Grows;
  }

  lemma {:induction false} ObtainCopies(w: World, net: Net, b: nat, destination: string, channel: string, a: nat)
    requires Sound(w) && Inv(w, net)
    ensures CopyOfNext(w, net, Obtain(w, net, b, destination, channel).0, a, ProducerOf(channel))
    decreases b
  {
    hide Inv, ProducerOf, Fetch, Sound, KnowsKey, Ask, Routed;
    SoundUp(w, b);
    if ProducerOf(channel) !in CacheOf(net, b) && w.upstream(b).Some? {
      var u := w.upstream(b).value;
      hide CopyOfNext, Obtain;
      if a == b {
        OwnCopy(w, net, b, u, destination, channel);
      } else {
        ObtainCopies(w, net, u, w.name(b), channel, a);
        OthersKeep(w, net, b, u, destination, channel, a);
      }
    }
  }

  /** After any uploads and fetches: whatever a consumer is told in the end, its fetch leaves the
      ciphertext at exactly the brokers named by `Leaves`, each new copy being of what is cached one
      broker up - unless the channel does not name it or the keys from upstream to b cannot be asked for,
      which leaves everything as it was. */
  lemma {:induction false} ConsumeLeaves(w: World, ops: seq<Op>, b: nat, consumer: string, channel: string, a: nat)
    requires Sound(w)
    ensures var net := FromStart(w, ops); var next := Consume(w, net, b, consumer, channel).0;
            if ConsumerOf(channel) != Some(consumer) || Ask(w, b, Upstream(w, b, channel), Me(w, b)).Raised?
            then next == net
            else Leaves(w, net, b, a, channel, next) && CopyOfNext(w, net, next, a, ProducerOf(channel))
  {
    var net := FromStart(w, ops);
    StartInv(w);
    EveryRunKeeps(w, Net(map[], map[], map[]), ops);
    ObtainLeaves(w, net, b, consumer, channel, a);
    ObtainCopies(w, net, b, consumer, channel, a);
    ConsumeCaches(w, net, b, consumer, channel, a);
    ConsumeCaches(w, net, b, consumer, channel, if w.upstream(a).Some? then w.upstream(a).value else a);
    hide Inv, ProducerOf, ConsumerOf, Obtain, Ask, KnowsKey, Connected, RunOps, Sound, Visits, CacheOf, Consume;
    if ConsumerOf(channel) != Some(consumer) || Ask(w, b, Upstream(w, b, channel), Me(w, b)).Raised? {
    } else {
      assert CopyOfNext(w, net, Obtain(w, net, b, consumer, channel).0, a, ProducerOf(channel));
    }
  }

  lemma {:induction false} ConsumeCaches(w: World, net: Net, b: nat, consumer: string, channel: string, a: nat)
    ensures var next := Consume(w, net, b, consumer, channel).0;
            if ConsumerOf(channel) != Some(consumer) || Ask(w, b, Upstream(w, b, channel), Me(w, b)).Raised?
            then next == net
            else CacheOf(next, a) == CacheOf(Obtain(w, net, b, consumer, channel).0, a)
  {
    hide ProducerOf, ConsumerOf, Obtain, Ask, KnowsKey, Convert, RouteOf;
  }

  // ---- what is recorded, and when nothing is found ----

  /** The line a broker writes: the broker upstream, or at the top the producer, flagged as the source. */
  function LineFor(w: World, b: nat, channel: string, destination: string): Route {
    match w.upstream(b)
    case Some(u) => Route(channel, w.name(u), destination, "")
    case None => Route(channel, ProducerOf(channel), destination, "source")
  }

  lemma {:induction false} LineIs(w: World, b: nat, channel: string, destination: string)
    ensures RouteOf(w, b, channel, destination) == LineFor(w, b, channel, destination)
  {
    hide ProducerOf;
  }

  /** A fetch adds this line to b's table if and only if it finds the ciphertext, and nothing to the
      tables of larger brokers. */
  lemma {:induction false} FetchRecords(w: World, net: Net, b: nat, down: string, channel: string)
    ensures var (net', r) := Fetch(w, net, b, down, channel);
            && RoutingOf(net', b) == RoutingOf(net, b) + (if r.Found? then [LineFor(w, b, channel, down)] else [])
            && forall x: nat | b < x :: RoutingOf(net', x) == RoutingOf(net, x)
    ensures forall x: nat | b <= x :: RoutingOf(Obtain(w, net, b, down, channel).0, x) == RoutingOf(net, x)
    decreases b
  {
    hide Convert, KnowsKey, Ask, RouteOf, ProducerOf, Routed, CacheOf, LineFor;
    if w.upstream(b).Some? && w.upstream(b).value < b {
      FetchRecords(w, net, w.upstream(b).value, w.name(b), channel);
    }
    LineIs(w, b, channel, down);
  }

  /** A consumer that is given the ciphertext is recorded as its destination, and a consumer told that
      there is none is not. */
  lemma {:induction false} ConsumeRecords(w: World, net: Net, b: nat, consumer: string, channel: string)
    ensures var (net', r) := Consume(w, net, b, consumer, channel);
            && (r.Found? ==> RoutingOf(net', b) == RoutingOf(net, b) + [LineFor(w, b, channel, consumer)]
                             && Routed(net', b, channel, consumer))
            && (r.NotFound? ==> RoutingOf(net', b) == RoutingOf(net, b))
  {
    FetchRecords(w, net, b, consumer, channel);
    LineIs(w, b, channel, consumer);
    LineNames(w, b, channel, consumer);
    LastOfOneMore(RoutingOf(net, b), LineFor(w, b, channel, consumer), consumer);
    hide KnowsKey, Ask, RouteOf, ProducerOf, ConsumerOf, CacheOf, LineFor, Obtain, LastRoutes;
  }

  lemma {:induction false} LineNames(w: World, b: nat, channel: string, destination: string)
    ensures LineFor(w, b, channel, destination).channel == channel
            && LineFor(w, b, channel, destination).destination == destination
  {}

  /** Broker a, the one above x, gets a line if and only if the fetch visits both and finds something at a;
      the line says that it went on to x. */
  ghost predicate Writes(w: World, net: Net, b: nat, x: nat, a: nat, channel: string, next: Net) {
    var p := ProducerOf(channel);
    RoutingOf(next, a)
    == RoutingOf(net, a)
       + (if Visits(w, net, b, a, channel) && 0 < Uploads(net, p) && Connected(w, a, p)
          then [LineFor(w, a, channel, w.name(x))] else [])
  }

  lemma {:induction false} VisitedIsSmaller(w: World, net: Net, b: nat, x: nat, channel: string)
    requires Visits(w, net, b, x, channel)
    ensures x <= b
    decreases b
  {
    hide ProducerOf, Ask, CacheOf, Upstream, Visits;
    VisitsUp(w, net, b, x, channel);
    if x != b { VisitedIsSmaller(w, net, w.upstream(b).value, x, channel); }
  }

  lemma {:induction false} ObtainWrites(w: World, net: Net, b: nat, destination: string, channel: string, x: nat,
      a: nat)
    requires Sound(w) && Inv(w, net) && w.upstream(x) == Some(a) && Visits(w, net, b, x, channel)
    ensures Writes(w, net, b, x, a, channel, Obtain(w, net, b, destination, channel).0)
    decreases b
  {
    hide Inv, ProducerOf, Sound, KnowsKey, Ask, Routed, Connected, Visits, Upstream, Uploads, LineFor, LastRoutes;
    VisitsUp(w, net, b, x, channel);
    VisitsUp(w, net, b, a, channel);
    VisitedIsSmaller(w, net, b, x, channel);
    SoundUp(w, x);
    SoundUp(w, b);
    RoutedIsCached(w, net, b, channel, destination);
    if ProducerOf(channel) !in CacheOf(net, b) && w.upstream(b).Some? {
      var u := w.upstream(b).value;
      if x == b {
        VisitsUp(w, net, u, u, channel);
        ObtainedIff(w, net, u, w.name(b), channel);
        FetchRecords(w, net, u, w.name(b), channel);
      } else {
        VisitedIsSmaller(w, net, u, x, channel);
        ObtainWrites(w, net, u, w.name(b), channel, x, a);
      }
    }
  }

  lemma {:induction false} ConsumeRouting(w: World, net: Net, b: nat, consumer: string, channel: string)
    ensures var (next, mid) := (Consume(w, net, b, consumer, channel).0, Obtain(w, net, b, consumer, channel));
            if ConsumerOf(channel) != Some(consumer) || Ask(w, b, Upstream(w, b, channel), Me(w, b)).Raised?
            then next == net
            else
              && (forall y: nat | y != b :: RoutingOf(next, y) == RoutingOf(mid.0, y))
              && (RoutingOf(next, b)
                  == RoutingOf(mid.0, b) + (if mid.1.Found? && !Ask(w, b, Me(w, b), Consumer(consumer)).Raised?
                                            then [LineFor(w, b, channel, consumer)] else []))
  {
    LineIs(w, b, channel, consumer);
    hide ProducerOf, ConsumerOf, Obtain, Ask, KnowsKey, Convert, RouteOf, LineFor;
  }

  /** After any uploads and fetches: what a consumer's fetch writes into the tables, whatever it is told in
      the end. b gets a line for the consumer if and only if b obtains the ciphertext and the consumer's key
      can be asked for. */
  lemma {:induction false} ConsumeWrites(w: World, ops: seq<Op>, b: nat, consumer: string, channel: string, x: nat,
      a: nat)
    requires Sound(w)
    ensures var net := FromStart(w, ops); var next := Consume(w, net, b, consumer, channel).0;
            var p := ProducerOf(channel);
            if ConsumerOf(channel) != Some(consumer) || Ask(w, b, Upstream(w, b, channel), Me(w, b)).Raised?
            then next == net
            else
              && (w.upstream(x) == Some(a) && Visits(w, net, b, x, channel) ==>
                    Writes(w, net, b, x, a, channel, next))
              && (RoutingOf(next, b)
                  == RoutingOf(net, b) + (if 0 < Uploads(net, p) && Connected(w, b, p)
                                             && !Ask(w, b, Me(w, b), Consumer(consumer)).Raised?
                                          then [LineFor(w, b, channel, consumer)] else []))
  {
    hide Inv, ProducerOf, ConsumerOf, Obtain, Ask, KnowsKey, Connected, RunOps, Sound, Visits, Consume, Upstream,
        RoutingOf, LineFor, Uploads;
    var net := FromStart(w, ops);
    StartInv(w);
    EveryRunKeeps(w, Net(map[], map[], map[]), ops);
    ConsumeRouting(w, net, b, consumer, channel);
    FetchRecords(w, net, b, consumer, channel);
    ObtainedIff(w, net, b, consumer, channel);
    SoundUp(w, x);
    if w.upstream(x) == Some(a) && Visits(w, net, b, x, channel) {
      VisitedIsSmaller(w, net, b, x, channel);
      ObtainWrites(w, net, b, consumer, channel, x, a);
    }
  }

  /** Neither b nor any broker above it has the producer cached, and all of them can ask for their keys. */
  ghost predicate NowhereAbove(w: World, net: Net, b: nat, channel: string) {
    forall a: nat, d: nat | Below(w, b, a, d) ::
      ProducerOf(channel) !in CacheOf(net, a) && !Ask(w, a, Upstream(w, a, channel), Me(w, a)).Raised?
  }

  lemma {:induction false} NowhereUp(w: World, net: Net, b: nat, channel: string)
    requires w.upstream(b).Some? ==> w.upstream(b).value < b
    ensures NowhereAbove(w, net, b, channel)
            <==> ProducerOf(channel) !in CacheOf(net, b) && !Ask(w, b, Upstream(w, b, channel), Me(w, b)).Raised?
                 && (w.upstream(b).Some? ==> NowhereAbove(w, net, w.upstream(b).value, channel))
  {
    hide ProducerOf, Ask, CacheOf, Upstream;
    assert Below(w, b, b, 0);
    if w.upstream(b).Some? {
      var u := w.upstream(b).value;
      forall a: nat, d: nat ensures Below(w, u, a, d) <==> Below(w, b, a, d + 1) {}
      forall a: nat, d: nat | Below(w, b, a, d) ensures (d == 0 && a == b) || (d != 0 && Below(w, u, a, d - 1)) {}
    } else {
      forall a: nat, d: nat | Below(w, b, a, d) ensures a == b {}
    }
  }

  /** A broker says that there is no such ciphertext - rather than raising an error - if and only if it is
      cached nowhere on the way up and every key on that way can be asked for. */
  lemma {:induction false} NothingFoundIff(w: World, net: Net, b: nat, destination: string, channel: string)
    requires Sound(w) && Inv(w, net)
    ensures Obtain(w, net, b, destination, channel).1.NotFound? <==> NowhereAbove(w, net, b, channel)
    decreases b
  {
    hide CachesOk, RoutesOk, ProducerOf, KnowsKey, Ask, Routed, CacheOf, NowhereAbove;
    NowhereUp(w, net, b, channel);
    RoutedIsCached(w, net, b, channel, destination);
    if w.upstream(b).Some? { NothingFoundIff(w, net, w.upstream(b).value, w.name(b), channel); }
  }

  /** After any uploads and fetches, the same for a consumer, if the channel names it and its key can be
      asked for. */
  lemma {:induction false} NothingForConsumerIff(w: World, ops: seq<Op>, b: nat, consumer: string, channel: string)
    requires Sound(w)
    ensures Consume(w, FromStart(w, ops), b, consumer, channel).1.NotFound?
            <==> ConsumerOf(channel) == Some(consumer) && !Ask(w, b, Me(w, b), Consumer(consumer)).Raised?
                 && NowhereAbove(w, FromStart(w, ops), b, channel)
  {
    hide Inv, ProducerOf, ConsumerOf, Obtain, Ask, KnowsKey, NowhereAbove, RunOps, Sound;
    StartInv(w);
    EveryRunKeeps(w, Net(map[], map[], map[]), ops);
    SoundUp(w, b);
    NowhereUp(w, FromStart(w, ops), b, channel);
    NothingFoundIff(w, FromStart(w, ops), b, consumer, channel);
  }

  lemma {:induction false} SoundUp(w: World, b: nat)
    requires Sound(w)
    ensures w.upstream(b).Some? ==> w.upstream(b).value < b
  {}

  // ---- the routes, as the table's text gives them back ----

  /** Names that the table's line format can carry. */
  ghost predicate CleanNames(w: World) { forall b: nat :: Clean(w.name(b), ":>;") }

  predicate CleanOp(op: Op) {
    match op
    case DoUpload(p) => true
    case DoFetch(b, down, channel) => Clean(down, ":>;") && Clean(channel, ":>")
    case DoConsume(b, consumer, channel) => Clean(consumer, ":>;") && Clean(channel, ":>")
  }

  ghost predicate CleanTables(net: Net) { forall b: nat :: forall r | r in RoutingOf(net, b) :: CleanRoute(r) }

  /** What b's parsing routine finds in the text of its table. */
  predicate InTable(net: Net, b: nat, channel: string, destination: string) {
    channel in LastRoutes(ParseAll(Words(FileOf(RoutingOf(net, b)))), destination)
  }

  lemma {:induction false} CleanRecord(w: World, net: Net, b: nat, channel: string, destination: string)
    requires CleanNames(w) && CleanTables(net) && Clean(channel, ":>") && Clean(destination, ":>;")
    ensures CleanTables(Record(net, b, RouteOf(w, b, channel, destination)))
  {
    var r, next := RouteOf(w, b, channel, destination), Record(net, b, RouteOf(w, b, channel, destination));
    assert CleanRoute(r) by {
      hide Split;
      PiecesWithin(channel, '-', 0);
      match w.upstream(b)
      case Some(u) => assert Clean(w.name(u), ":>;");
      case None =>
    }
    hide RouteOf, CleanRoute;
    forall x: nat, y | y in RoutingOf(next, x) ensures CleanRoute(y) {
      assert y in RoutingOf(net, x) || y == r;
    }
  }

  lemma {:induction false} ObtainClean(w: World, net: Net, b: nat, destination: string, channel: string)
    requires CleanNames(w) && CleanTables(net) && Clean(channel, ":>") && Clean(destination, ":>;")
    ensures CleanTables(Obtain(w, net, b, destination, channel).0)
    ensures CleanTables(Fetch(w, net, b, destination, channel).0)
    decreases b
  {
    hide CleanTables, Clean, Convert, KnowsKey, Ask, RouteOf, ProducerOf, Routed, Record;
    if w.upstream(b).Some? && w.upstream(b).value < b {
      assert Clean(w.name(b), ":>;");
      ObtainClean(w, net, w.upstream(b).value, w.name(b), channel);
    }
    var (net', r) := Obtain(w, net, b, destination, channel);
    assert CleanTables(net') by { ObtainKeepsTables(w, net, b, destination, channel); }
    CleanRecord(w, net', b, channel, destination);
  }

  lemma {:induction false} ObtainKeepsTables(w: World, net: Net, b: nat, destination: string, channel: string)
    requires CleanTables(net)
    requires w.upstream(b).Some? && w.upstream(b).value < b ==>
               CleanTables(Fetch(w, net, w.upstream(b).value, w.name(b), channel).0)
    ensures CleanTables(Obtain(w, net, b, destination, channel).0)
  {
    hide Fetch, Convert, KnowsKey, Ask, ProducerOf, Routed, CleanTables;
    var next := Obtain(w, net, b, destination, channel).0;
    if next.routing == net.routing {
      SameTables(net, next);
    } else {
      SameTables(Fetch(w, net, w.upstream(b).value, w.name(b), channel).0, next);
    }
  }

  lemma {:induction false} SameTables(net: Net, next: Net)
    requires CleanTables(net) && next.routing == net.routing
    ensures CleanTables(next)
  {
    assert forall b: nat :: RoutingOf(next, b) == RoutingOf(net, b);
  }

  lemma {:induction false} RunClean(w: World, net: Net, ops: seq<Op>)
    requires CleanNames(w) && CleanTables(net) && forall op | op in ops :: CleanOp(op)
    ensures CleanTables(RunOps(w, net, ops))
    decreases |ops|
  {
    if |ops| != 0 {
      assert CleanOp(ops[0]);
      OpClean(w, net, ops[0]);
      RunClean(w, Apply(w, net, ops[0]), ops[1..]);
    }
  }

  lemma {:induction false} OpClean(w: World, net: Net, op: Op)
    requires CleanNames(w) && CleanTables(net) && CleanOp(op)
    ensures CleanTables(Apply(w, net, op))
  {
    hide Clean, Convert, KnowsKey, Ask, RouteOf, ProducerOf, ConsumerOf, Obtain, Fetch, CleanTables, Record;
    match op {
      case DoUpload(p) =>
        assert CleanTables(Upload(w, net, p).0) by { UploadKeepsTables(w, net, p); }
      case DoFetch(b, down, channel) =>
        ObtainClean(w, net, b, down, channel);
      case DoConsume(b, consumer, channel) =>
        ObtainClean(w, net, b, consumer, channel);
        CleanRecord(w, Obtain(w, net, b, consumer, channel).0, b, channel, consumer);
    }
  }

  lemma {:induction false} UploadKeepsTables(w: World, net: Net, p: string)
    requires CleanTables(net)
    ensures CleanTables(Upload(w, net, p).0)
  {
    hide KnowsKey, Ask, CleanTables;
    SameTables(net, Upload(w, net, p).0);
  }

  /** With names the line format can carry, the list of routes kept here and the text of the table say
      the same about every channel and destination, after any operations. */
  lemma {:induction false} TableSaysTheSame(w: World, ops: seq<Op>, b: nat, channel: string, destination: string)
    requires CleanNames(w) && forall op | op in ops :: CleanOp(op)
    ensures Routed(FromStart(w, ops), b, channel, destination) <==> InTable(FromStart(w, ops), b, channel, destination)
  {
    hide RunOps, CleanNames, CleanOp, CleanRoute, LastRoutes, ParseAll, Words, FileOf;
    RunClean(w, Net(map[], map[], map[]), ops);
    ParsesWhatWasWritten(RoutingOf(FromStart(w, ops), b), destination);
  }

  // ---- why every broker has to be on the access map ----

  /** b can ask for the key from u, and both are registered. */
  predicate KeysKnown(w: World, b: nat, u: nat) {
    && Held(w.zone(b), w.above(b), Me(w, u)) && Me(w, b) in w.zone(b).public && KnowsKey(w, b, Me(w, u))
  }

  /** After b has fetched what u holds under u's key, b's entry is under b's key if and only if b is on
      the access map of the zone that holds u's private key; otherwise it is u's entry unchanged. */
  lemma {:induction false} OwnKeyIff(w: World, net: Net, b: nat, u: nat, destination: string, channel: string)
    requires w.upstream(b) == Some(u) && u < b && Me(w, u) != Me(w, b) && KeysKnown(w, b, u)
    requires !Routed(net, b, channel, destination)
    requires ProducerOf(channel) !in CacheOf(net, b) && ProducerOf(channel) in CacheOf(net, u)
    requires CacheOf(net, u)[ProducerOf(channel)].Ct? && CacheOf(net, u)[ProducerOf(channel)].owner == Me(w, u)
    ensures var out := Obtain(w, net, b, destination, channel); var p := ProducerOf(channel);
            && p in CacheOf(out.0, b) && out.1 == Found(CacheOf(out.0, b)[p]) && CacheOf(out.0, b)[p].Ct?
            && (CacheOf(out.0, b)[p].owner == Me(w, b) <==> w.name(b) in MapOf(w.zone(b), w.above(b), Me(w, u)))
            && (CacheOf(out.0, b)[p].owner != Me(w, b) ==> CacheOf(out.0, b)[p] == CacheOf(net, u)[p])
  {
    hide ProducerOf, Routed, KnowsKey, RouteOf, RekeyFor, MapOf, Held;
    var p := ProducerOf(channel);
    var ct := CacheOf(net, u)[p];
    MapDecides(w.zone(b), w.above(b), Me(w, u), Me(w, b));
    assert Obtain(w, net, u, w.name(b), channel) == (net, Found(ct));
    var net' := Record(net, u, RouteOf(w, u, channel, w.name(b)));
    assert Fetch(w, net, u, w.name(b), channel) == (net', Found(ct));
    var mine := if w.name(b) in MapOf(w.zone(b), w.above(b), Me(w, u)) then ReEncrypt(ct, Me(w, u), Me(w, b)) else ct;
    assert Obtain(w, net, b, destination, channel) == (Put(net', b, p, mine), Found(mine));
    PutIs(net', b, p, mine);
  }

  // ---- two brokers, on and off the map ----

  /** Producer "p" at broker "a", broker "b" below it, consumer "c", all in one zone. */
  function TwoBrokers(accessMap: seq<string>): World {
    var all := {Producer("p"), Broker("a"), Broker("b"), Consumer("c")};
    World((b: nat) => if b == 0 then "a" else "b", (b: nat) => if b == 1 then Some(0) else None,
          (b: nat) => if b < 2 then Zone(all, all, accessMap) else Zone({}, {}, []), (b: nat) => None, (p: string) => 0)
  }

  /** A channel named after a producer and a consumer, neither with a dash in its name. */
  lemma {:induction false} ChannelIs(p: string, c: string)
    requires '-' !in p && '-' !in c
    ensures ProducerOf(p + "-" + c) == p && ConsumerOf(p + "-" + c) == Some(c)
  {
    hide Split;
    SplitAfter(p, '-', c);
    SplitNone(c, '-');
  }

  lemma {:induction false} ChannelNames()
    ensures ProducerOf("p-c") == "p" && ConsumerOf("p-c") == Some("c")
  {
    ChannelIs("p", "c");
    assert "p" + "-" + "c" == "p-c";
  }

  lemma {:induction false} TwoBrokersAnswer(accessMap: seq<string>)
    requires "a" in accessMap && "c" in accessMap
    ensures var w := TwoBrokers(accessMap);
            && Ask(w, 0, Producer("p"), Broker("a")) == Key(Producer("p"), Broker("a"))
            && Ask(w, 1, Broker("a"), Broker("b"))
               == (if "b" in accessMap then Key(Broker("a"), Broker("b")) else NullKey)
            && Ask(w, 1, Broker("b"), Consumer("c")) == Key(Broker("b"), Consumer("c"))
            && KeysKnown(w, 1, 0) && KnowsKey(w, 1, Broker("b")) && KnowsKey(w, 0, Producer("p"))
  {}

  /** The condition on the world is exactly that "b" is on the map. */
  lemma {:induction false} SoundIff(accessMap: seq<string>)
    requires "a" in accessMap
    ensures Sound(TwoBrokers(accessMap)) <==> "b" in accessMap
  {
    var w := TwoBrokers(accessMap);
    assert Ask(w, 1, Broker("a"), Me(w, 1)) == NullKey <==> "b" !in accessMap;
  }

  function OneUpload(accessMap: seq<string>): Net { FromStart(TwoBrokers(accessMap), [DoUpload("p")]) }

  /** After one upload broker "a" alone holds it, and no route is recorded. */
  lemma {:induction false} Uploaded(accessMap: seq<string>)
    requires "a" in accessMap && "c" in accessMap
    ensures var net := OneUpload(accessMap);
            && CacheOf(net, 0) == map["p" := Ct(Broker("a"), "p", 0, 1)] && CacheOf(net, 1) == map[]
            && net.routing == map[]
  {
    hide ProducerOf, ConsumerOf, Ask, KnowsKey, Held, RunOps;
    var w := TwoBrokers(accessMap);
    TwoBrokersAnswer(accessMap);
    OneOp(w, Net(map[], map[], map[]), DoUpload("p"));
  }

  /** What broker "b" takes from broker "a". */
  lemma {:induction false} TakenFromAbove(accessMap: seq<string>)
    requires "a" in accessMap && "c" in accessMap
    ensures var w := TwoBrokers(accessMap); var out := Obtain(w, OneUpload(accessMap), 1, "c", "p-c");
            var mine := if "b" in accessMap then Ct(Broker("b"), "p", 0, 2) else Ct(Broker("a"), "p", 0, 1);
            out.1 == Found(mine) && "p" in CacheOf(out.0, 1) && CacheOf(out.0, 1)["p"] == mine
  {
    var w, net := TwoBrokers(accessMap), OneUpload(accessMap);
    ChannelNames();
    TwoBrokersAnswer(accessMap);
    Uploaded(accessMap);
    assert "a" != "b" by { assert "a"[0] != "b"[0]; }
    assert Me(w, 0) == Broker("a") && Me(w, 1) == Broker("b");
    assert !Routed(net, 1, "p-c", "c") && !Routed(net, 0, "p-c", "b");
    hide ProducerOf, ConsumerOf, Ask, KnowsKey, Held, OneUpload, Routed;
    var ct := Ct(Broker("a"), "p", 0, 1);
    assert Obtain(w, net, 0, "b", "p-c") == (net, Found(ct));
    var net' := Record(net, 0, RouteOf(w, 0, "p-c", "b"));
    assert Fetch(w, net, 0, "b", "p-c") == (net', Found(ct));
    var mine := if "b" in accessMap then Ct(Broker("b"), "p", 0, 2) else ct;
    assert Obtain(w, net, 1, "c", "p-c") == (Put(net', 1, "p", mine), Found(mine));
    PutIs(net', 1, "p", mine);
  }

  /** Consumer "c" asks broker "b" after one upload: with "b" on the access map it gets the upload under
      its own key; without, "b" keeps the ciphertext under the key of "a", and "c" gets garbage. */
  lemma {:induction false} OneNameDecides(accessMap: seq<string>)
    requires "a" in accessMap && "c" in accessMap
    ensures var w := TwoBrokers(accessMap); var net := FromStart(w, [DoUpload("p")]);
            var out := Consume(w, net, 1, "c", "p-c");
            && "p" in CacheOf(out.0, 1)
            && (CacheOf(out.0, 1)["p"]
                == if "b" in accessMap then Ct(Broker("b"), "p", 0, 2) else Ct(Broker("a"), "p", 0, 1))
            && out.1 == Found(if "b" in accessMap then Ct(Consumer("c"), "p", 0, 3) else Garbage)
  {
    var w, net := TwoBrokers(accessMap), OneUpload(accessMap);
    ChannelNames();
    TwoBrokersAnswer(accessMap);
    TakenFromAbove(accessMap);
    assert "a" != "b" by { assert "a"[0] != "b"[0]; }
    assert Me(w, 1) == Broker("b") && Upstream(w, 1, "p-c") == Broker("a");
    hide ProducerOf, ConsumerOf, Ask, KnowsKey, Held, Obtain, TwoBrokers;
    assert net == FromStart(w, [DoUpload("p")]);
  }

  lemma {:induction false} OneOp(w: World, net: Net, op: Op)
    ensures RunOps(w, net, [op]) == Apply(w, net, op)
  {
    assert [op][1..] == [];
  }
}

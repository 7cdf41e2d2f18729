/** The ports of a network, and what one call of the connection protocol does to all of them.

    A port's `connect` and `disconnect` call its peer, which calls back. The functions below say in
    closed form, with no recursion, what such a call leaves behind. They are defined on every
    well-typed network, also on the half-linked ones a nested call finds. Module `PortNetwork` holds
    the calls themselves and proves that they compute these functions.
 */
module Ports {

  type PortId = nat
  type Item = int

  datatype Policy = Single | Multi

  datatype Kind =
    | Producer
    | Consumer(policy: Policy)  // a buffered or a callback consumer
    | MultiConsumer
    | Requester
    | MultiRequester
    | Responder
    | Host
    | Client
  {
    /** The port keeps its peers in a ConnectionManager. */
    predicate Managed() {
      Consumer? || MultiConsumer? || MultiRequester? || Responder? || Host?
    }

    /** The port holds one peer pointer, and hangs up by disconnecting that peer altogether. */
    predicate Slot() {
      Requester? || Client?
    }

    /** The port keeps a second index of its peers: the keys of a queue map or of a slave map. */
    predicate Keyed() {
      MultiConsumer? || MultiRequester?
    }

    /** The port's `connect` casts the other port first. */
    predicate Casts() {
      Producer? || Requester? || MultiRequester? || Client?
    }

    /** The port refuses a second peer. */
    predicate Exclusive() {
      Requester? || this == Consumer(Single)
    }

    /** The cast made by a port of this kind can succeed on a port of kind `other`. */
    predicate Suits(other: Kind) {
      match this
      case Producer => other.Consumer? || other.MultiConsumer?
      case Requester => other.Responder?
      case MultiRequester => other.Responder?
      case Client => other.Host?
      case _ => true
    }
  }

  /** One port: its peers, its second index of them, the data it has taken in, and whether it has not
      been deactivated. */
  datatype Port = Port(kind: Kind, peers: set<PortId>, keys: set<PortId>, inbox: seq<(PortId, Item)>, active: bool)
  {
    /** A buffered consumer drops what it receives after it was deactivated; a multi consumer's queues
        go on taking items. */
    predicate TakesData() {
      kind.Consumer? ==> active
    }
  }

  type Net = map<PortId, Port>

  /** Which casts succeed; the type parameters of the ports decide it. */
  type Casting = set<(PortId, PortId)>

  datatype Reply = Agreed | Refused

  predicate Lists(n: Net, a: PortId, b: PortId) {
    a in n && b in n[a].peers
  }

  ghost function Links(n: Net): set<(PortId, PortId)> {
    set a, b | a in n && b in n[a].peers :: (a, b)
  }

  predicate Accepts(c: Casting, n: Net, p: PortId, q: PortId)
    requires p in n && q in n
  {
    n[p].kind.Casts() ==> n[p].kind.Suits(n[q].kind) && (p, q) in c
  }

  ghost predicate WellTypedAt(c: Casting, n: Net, p: PortId)
    requires p in n
  {
    && n[p].peers <= n.Keys
    && (forall q <- n[p].peers :: Accepts(c, n, p, q))
    && (n[p].kind.Exclusive() || n[p].kind.Slot() ==>
          forall q <- n[p].peers, r <- n[p].peers :: q == r)
    && (!n[p].kind.Keyed() ==> n[p].keys == {})
  }

  /** Holds before, during and after every call, mutual links or not. */
  ghost predicate WellTyped(c: Casting, n: Net) {
    forall p <- n :: WellTypedAt(c, n, p)
  }

  // ---------- What disconnecting leaves behind ----------

  /** The ports of `cut` that list `x`. */
  function Gone(n: Net, cut: set<PortId>, x: PortId): set<PortId> {
    set c | c in cut && Lists(n, c, x)
  }

  /** Every port of `cut` is left without peers, and the ports it listed no longer list it. */
  function Isolate(n: Net, cut: set<PortId>): Net {
    map x | x in n ::
      if x in cut then
        n[x].(peers := {}, keys := {})
      else
        n[x].(peers := n[x].peers - Gone(n, cut, x), keys := n[x].keys - Gone(n, cut, x))
  }

  /** `p` forgets `q`. */
  function Forget(n: Net, p: PortId, q: PortId): Net
    requires p in n
  {
    n[p := n[p].(peers := n[p].peers - {q}, keys := n[p].keys - {q})]
  }

  function ForgetKey(n: Net, p: PortId, q: PortId): Net
    requires p in n
  {
    n[p := n[p].(keys := n[p].keys - {q})]
  }

  function AfterDisconnectAll(n: Net, p: PortId): Net
    requires p in n
  {
    if n[p].kind.Managed() then
      Isolate(n, {p})
    else
      // a producer, requester or client disconnects each of its peers from everything
      Isolate(n[p := n[p].(peers := {})], n[p].peers)
  }

  function AfterDisconnect(n: Net, p: PortId, q: PortId): Net
    requires p in n && q in n
  {
    if n[p].kind.Slot() then
      if q in n[p].peers then AfterDisconnectAll(n, p) else n
    else if q !in n[p].peers then
      ForgetKey(n, p, q)
    else if !n[q].kind.Slot() then
      Forget(Forget(n, p, q), q, p)
    else if p in n[q].peers then
      Isolate(Forget(Forget(n, p, q), q, p), {p})  // the slot port hangs up on p
    else
      Forget(n, p, q)
  }

  // ---------- What connecting leaves behind ----------

  datatype Decision = Have | Decline | Take

  /** How `p` reacts to `connect(q)`. */
  function Decide(c: Casting, n: Net, p: PortId, q: PortId): Decision
    requires p in n && q in n
  {
    var has := q in n[p].peers;
    if n[p].kind.Slot() && has then Have
    else if !Accepts(c, n, p, q) then Decline
    else if has then Have
    else if n[p].kind.Exclusive() && n[p].peers != {} then Decline
    else Take
  }

  /** `p` records `q`; a client that has a host first hangs up on it. */
  function Taken(n: Net, p: PortId, q: PortId): (m: Net)
    requires p in n
  {
    var m := if n[p].kind.Client? then AfterDisconnectAll(n, p) else n;
    m[p := m[p].(peers := m[p].peers + {q})]
  }

  function WithKey(n: Net, p: PortId, q: PortId): Net
    requires p in n
  {
    if n[p].kind.Keyed() then n[p := n[p].(keys := n[p].keys + {q})] else n
  }

  function AfterConnect(c: Casting, n: Net, p: PortId, q: PortId): (Reply, Net)
    requires p in n && q in n
  {
    match Decide(c, n, p, q)
    case Decline => (Refused, n)
    case Have => (Agreed, WithKey(n, p, q))
    case Take =>
      var m := Taken(n, p, q);
      match Decide(c, m, q, p)
      case Decline => (Refused, if n[p].kind.Managed() then n else m)
      case Have => (Agreed, WithKey(WithKey(m, q, p), p, q))
      case Take => (Agreed, WithKey(WithKey(Taken(m, q, p), q, p), p, q))
  }

  // ---------- What sending leaves behind ----------

  function AfterSend(n: Net, p: PortId, t: Item): Net
    requires p in n
  {
    map x | x in n ::
      if x in n[p].peers then
        n[x].(inbox := if n[x].TakesData() then n[x].inbox + [(p, t)] else n[x].inbox,
              keys := if n[x].kind.MultiConsumer? then n[x].keys + {p} else n[x].keys)
      else n[x]
  }

  /** `deactivate` closes the port's buffers and leaves the links alone. */
  function AfterDeactivate(n: Net, p: PortId): Net
    requires p in n
  {
    n[p := n[p].(active := false)]
  }
}

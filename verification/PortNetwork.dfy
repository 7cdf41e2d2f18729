/** The connection protocol as the ports run it: each call updates the port's own record and then
    calls the peer, which calls back. Every method is proved to leave behind exactly what the
    closed forms of module `Ports` say, and its recursion is proved to end: each nested disconnect
    has fewer links to look at, each nested connect fewer missing half-links of its pair.
 */
module PortNetwork {
  import opened Ports

  /** The half-links between `p` and `q` that are not there yet. */
  ghost function Missing(n: Net, p: PortId, q: PortId): set<(PortId, PortId)> {
    {(p, q), (q, p)} - Links(n)
  }

  lemma IsolateKeepsTyping(c: Casting, n: Net, cut: set<PortId>)
    requires WellTyped(c, n)
    ensures WellTyped(c, Isolate(n, cut))
    ensures Links(Isolate(n, cut)) <= Links(n)
  {
    var m := Isolate(n, cut);
    assert m.Keys == n.Keys;
    assert forall x <- n :: m[x].peers <= n[x].peers && m[x].kind == n[x].kind;
  }

  lemma OneMoreGone(n: Net, cut: set<PortId>, d: PortId, x: PortId)
    requires d in n && x in n && x !in cut && x != d
    ensures Gone(n, cut, x) + Gone(Isolate(n, cut), {d}, x) == Gone(n, cut + {d}, x)
  {
    var m := Isolate(n, cut);
    assert d !in cut ==> (Lists(m, d, x) <==> Lists(n, d, x));
  }

  /** Cutting off one more port extends the set that is cut off. */
  lemma IsolateOneMore(n: Net, cut: set<PortId>, d: PortId)
    requires d in n
    ensures Isolate(Isolate(n, cut), {d}) == Isolate(n, cut + {d})
  {
    var m := Isolate(n, cut);
    forall x | x in n ensures Isolate(m, {d})[x] == Isolate(n, cut + {d})[x] {
      if x !in cut && x != d {
        var a, b := Gone(n, cut, x), Gone(m, {d}, x);
        OneMoreGone(n, cut, d, x);
        assert n[x].peers - a - b == n[x].peers - (a + b);
        assert n[x].keys - a - b == n[x].keys - (a + b);
      }
    }
  }

  lemma IsolateNone(n: Net)
    ensures Isolate(n, {}) == n
  {
    forall x | x in n ensures Isolate(n, {})[x] == n[x] {
      assert Gone(n, {}, x) == {};
    }
  }

  lemma IsolateOne(n: Net, p: PortId, x: PortId)
    requires p in n && x in n && x != p
    ensures Isolate(n, {p})[x] == if x in n[p].peers then Forget(n, x, p)[x] else n[x]
  {
    assert Gone(n, {p}, x) == if x in n[p].peers then {p} else {};
  }

  /** `p` has swapped out its peers and has told the ports of `told`; nothing else differs from `n`,
      except perhaps which keys `p` still holds. */
  ghost predicate Told(n: Net, m: Net, p: PortId, told: set<PortId>)
    requires p in n
  {
    && m.Keys == n.Keys
    && m[p].(keys := {}) == n[p].(peers := {}, keys := {})
    && forall x <- n | x != p :: m[x] == if x in told then Forget(n, x, p)[x] else n[x]
  }

  lemma TellOneMore(n: Net, m: Net, p: PortId, told: set<PortId>, x: PortId)
    requires p in n && x in n && x !in told && n[p].kind.Managed() && Told(n, m, p, told)
    requires n[x].kind.Slot() ==> n[x].keys == {} && (p in n[x].peers ==> n[x].peers == {p})
    ensures Told(n, AfterDisconnect(m, x, p), p, told + {x})
  {
    if x == p || p !in m[x].peers {
      assert m[x].peers - {p} == m[x].peers;
    } else if n[x].kind.Slot() {
      var h := m[x := m[x].(peers := {})];
      assert h[p].peers == {};
      forall y | y in n && y != p ensures Isolate(h, {p})[y] == h[y] {
        IsolateOne(h, p, y);
      }
    }
  }

  lemma ToldAll(n: Net, m: Net, p: PortId)
    requires p in n && Told(n, m, p, n[p].peers)
    ensures m[p := m[p].(keys := {})] == Isolate(n, {p})
  {
    forall x | x in n && x != p ensures m[x] == Isolate(n, {p})[x] {
      IsolateOne(n, p, x);
    }
  }

  /** `p` has dropped its half of the link to `q` and calls `q`, which may call back. */
  lemma DroppingThenCalling(n: Net, p: PortId, q: PortId)
    requires p in n && q in n && !n[p].kind.Slot() && q in n[p].peers
    requires n[q].kind.Slot() ==> n[q].keys == {} && (p in n[q].peers ==> n[q].peers == {p})
    requires n[q].kind.Slot() && p in n[q].peers ==> n[p].kind.Managed()
    ensures var m := n[p := n[p].(peers := n[p].peers - {q})];
            p in AfterDisconnect(m, q, p) &&
            ForgetKey(AfterDisconnect(m, q, p), p, q) == AfterDisconnect(n, p, q)
  {
    var m := n[p := n[p].(peers := n[p].peers - {q})];
    assert m[p].peers - {q} == m[p].peers;
    if n[q].kind.Slot() {
      if p in n[q].peers {
        SlotHangsUp(n, p, q);
      }
    } else if p in m[q].peers {
      assert m[p].keys - {q} - {q} == m[p].keys - {q};
      assert ForgetKey(Forget(Forget(m, q, p), p, q), p, q) == Forget(Forget(n, p, q), q, p);
    } else {
      assert m[q].peers - {p} == m[q].peers;
      assert ForgetKey(ForgetKey(m, q, p), p, q) == Forget(Forget(n, p, q), q, p);
    }
  }

  lemma SlotHangsUp(n: Net, p: PortId, q: PortId)
    requires p in n && q in n && n[p].kind.Managed() && n[q].kind.Slot()
    requires n[q].peers == {p} && n[q].keys == {}
    ensures var m := n[p := n[p].(peers := n[p].peers - {q})];
            ForgetKey(AfterDisconnectAll(m, q), p, q) == Isolate(Forget(Forget(n, p, q), q, p), {p})
  {
    var m := n[p := n[p].(peers := n[p].peers - {q})];
    var a := m[q := m[q].(peers := {})];
    var keys := n[p].keys - {q};
    assert n[q].keys - {p} == {} && n[q].peers - {p} == {};
    assert Forget(Forget(n, p, q), q, p) == a[p := a[p].(keys := keys)];
    IsolatedKeysGo(a, p, keys);
    assert m[q].peers == {p};
    assert Isolate(a, {p})[p].keys - {q} == {};
  }

  lemma IsolatedKeysGo(n: Net, p: PortId, keys: set<PortId>)
    requires p in n
    ensures Isolate(n[p := n[p].(keys := keys)], {p}) == Isolate(n, {p})
  {
    var m := n[p := n[p].(keys := keys)];
    forall x | x in n && x != p ensures Isolate(m, {p})[x] == Isolate(n, {p})[x] {
      IsolateOne(m, p, x);
      IsolateOne(n, p, x);
    }
  }

  /** `x` is the next of the peers of `p`, after those of `told`, to be told that `p` has dropped it. */
  lemma NextTold(c: Casting, n: Net, m: Net, p: PortId, todo: set<PortId>, x: PortId)
    requires WellTyped(c, n) && p in n && n[p].kind.Managed() && x in todo && todo <= n[p].peers
    requires Told(n, m, p, n[p].peers - todo) && Links(m) <= Links(n)
    ensures x in m && Told(n, AfterDisconnect(m, x, p), p, n[p].peers - (todo - {x}))
    ensures Links(m) < Links(n)
  {
    if n[x].kind.Slot() {
      SlotHasOnePeer(c, n, x, p);
    }
    TellOneMore(n, m, p, n[p].peers - todo, x);
    assert n[p].peers - todo + {x} == n[p].peers - (todo - {x});
    FewerLinks(n, m, p, x);
  }

  /** One more consumer `d` of the producer `p` is about to be cut off, after those of `done`. */
  lemma NextConsumer(c: Casting, n: Net, m: Net, p: PortId, done: set<PortId>, d: PortId)
    requires WellTyped(c, n) && p in n && n[p].kind.Producer? && d in n[p].peers
    requires m == Isolate(n[p := n[p].(peers := {})], done) && Links(m) <= Links(n)
    ensures d in m && AfterDisconnectAll(m, d) == Isolate(n[p := n[p].(peers := {})], done + {d})
    ensures Links(m) < Links(n)
  {
    assert Accepts(c, n, p, d);
    IsolateOneMore(n[p := n[p].(peers := {})], done, d);
    FewerLinks(n, m, p, d);
  }

  lemma ProducerIsolates(n: Net, p: PortId)
    requires p in n && n[p].kind.Producer?
    ensures Isolate(n[p := n[p].(peers := {})], n[p].peers) == AfterDisconnectAll(n, p)
  {
  }

  lemma WithKeyKeepsTyping(c: Casting, n: Net, p: PortId, q: PortId)
    requires WellTyped(c, n) && p in n
    ensures WellTyped(c, WithKey(n, p, q))
  {
    var m := WithKey(n, p, q);
    assert forall x <- m :: m[x].peers == n[x].peers && m[x].kind == n[x].kind;
    assert forall x <- m :: forall y <- m[x].peers :: Accepts(c, n, x, y);
  }

  lemma KeyForgotten(c: Casting, n: Net, p: PortId, q: PortId)
    requires WellTyped(c, n) && p in n
    ensures WellTyped(c, ForgetKey(n, p, q)) && Links(ForgetKey(n, p, q)) == Links(n)
    ensures !n[p].kind.Keyed() ==> ForgetKey(n, p, q) == n
  {
    var m := ForgetKey(n, p, q);
    assert forall x <- m :: m[x].peers == n[x].peers && m[x].kind == n[x].kind;
    assert forall x <- n :: forall y <- n[x].peers :: Accepts(c, n, x, y) && Accepts(c, m, x, y);
    assert n[p].keys == {} ==> n[p].keys - {q} == n[p].keys;
  }

  /** A lost half-link makes the recursion measure smaller. */
  lemma FewerLinks(n: Net, m: Net, p: PortId, q: PortId)
    requires Links(m) <= Links(n) && Lists(n, p, q) && !Lists(m, p, q)
    ensures Links(m) < Links(n)
  {
    assert (p, q) in Links(n) && (p, q) !in Links(m);
  }

  lemma DroppingKeepsTyping(c: Casting, n: Net, p: PortId, peers: set<PortId>)
    requires WellTyped(c, n) && p in n && peers <= n[p].peers
    ensures WellTyped(c, n[p := n[p].(peers := peers)])
    ensures Links(n[p := n[p].(peers := peers)]) <= Links(n)
  {
    var m := n[p := n[p].(peers := peers)];
    assert forall x <- m :: m[x].peers <= n[x].peers && m[x].kind == n[x].kind && m[x].keys == n[x].keys;
  }

  /** What is known of a port that holds a single pointer. */
  lemma SlotHasOnePeer(c: Casting, n: Net, x: PortId, p: PortId)
    requires WellTyped(c, n) && x in n && n[x].kind.Slot()
    ensures n[x].keys == {} && (p in n[x].peers ==> n[x].peers == {p} && p in n && n[p].kind.Managed())
  {
    assert p in n[x].peers ==> Accepts(c, n, x, p);
  }

  lemma AddingKeepsTyping(c: Casting, n: Net, p: PortId, q: PortId)
    requires WellTyped(c, n) && p in n && q in n && Accepts(c, n, p, q)
    requires n[p].kind.Exclusive() || n[p].kind.Slot() ==> n[p].peers == {}
    ensures WellTyped(c, n[p := n[p].(peers := n[p].peers + {q})])
  {
    var m := n[p := n[p].(peers := n[p].peers + {q})];
    forall x | x in m ensures forall y <- m[x].peers :: Accepts(c, m, x, y) {
      assert forall y <- n[x].peers :: Accepts(c, n, x, y);
    }
  }

  lemma TakingKeepsTyping(c: Casting, n: Net, p: PortId, q: PortId)
    requires WellTyped(c, n) && p in n && q in n && Decide(c, n, p, q) == Take
    ensures WellTyped(c, Taken(n, p, q))
  {
    if n[p].kind.Client? {
      DroppingKeepsTyping(c, n, p, {});
      IsolateKeepsTyping(c, n[p := n[p].(peers := {})], n[p].peers);
      AddingKeepsTyping(c, AfterDisconnectAll(n, p), p, q);
    } else {
      AddingKeepsTyping(c, n, p, q);
    }
  }

  lemma FreeSlotStays(n: Net, p: PortId)
    requires p in n && n[p].kind.Slot() && n[p].peers == {}
    ensures AfterDisconnectAll(n, p) == n
  {
    IsolateNone(n);
    assert n[p := n[p].(peers := {})] == n;
  }

  /** A requester or a client takes its one peer after it has left any other. */
  lemma SlotTakes(c: Casting, n: Net, p: PortId, q: PortId)
    requires WellTyped(c, n) && p in n && q in n && n[p].kind.Slot() && Decide(c, n, p, q) == Take
    ensures var m := AfterDisconnectAll(n, p);
            p in m && m[p].peers == {} && m[p := m[p].(peers := {q})] == Taken(n, p, q)
  {
    var m := AfterDisconnectAll(n, p);
    if n[p].kind.Requester? {
      FreeSlotStays(n, p);
    }
    assert m[p].peers == {};
    assert m[p].peers + {q} == {q};
  }

  /** A recorded half-link makes the recursion measure of `connect` smaller. */
  lemma FewerMissing(n: Net, m: Net, p: PortId, q: PortId)
    requires !Lists(n, p, q) && Lists(m, p, q) && (Lists(n, q, p) ==> Lists(m, q, p))
    ensures Missing(m, q, p) < Missing(n, p, q)
  {
    assert (p, q) in Missing(n, p, q) && (p, q) !in Missing(m, q, p);
  }

  /** The peer that is asked back answers, and finds its own call answered with "already connected". */
  lemma AskingThePeer(c: Casting, n: Net, p: PortId, q: PortId)
    requires WellTyped(c, n) && p in n && q in n && Decide(c, n, p, q) == Take
    ensures var (reply, m) := AfterConnect(c, Taken(n, p, q), q, p);
            var (answer, r) := AfterConnect(c, n, p, q);
            && p in m && reply == answer
            && (reply == Refused ==> m == Taken(n, p, q) && (n[p].kind.Managed() ==> r == n))
            && (reply == Agreed ==> r == WithKey(m, p, q))
  {
    var m := Taken(n, p, q);
    if Decide(c, m, q, p) == Have {
      KeysInAnyOrder(m, p, q);
    } else if Decide(c, m, q, p) == Take {
      TakingKeepsTheOffer(c, n, p, q);
      KeysInAnyOrder(Taken(m, q, p), p, q);
    }
  }

  /** A port that keeps no index passes on what its peer answers. */
  lemma PassingOn(c: Casting, n: Net, p: PortId, q: PortId)
    requires WellTyped(c, n) && p in n && q in n && Decide(c, n, p, q) == Take && !n[p].kind.Managed()
    ensures AfterConnect(c, n, p, q) == AfterConnect(c, Taken(n, p, q), q, p)
  {
    AskingThePeer(c, n, p, q);
  }

  lemma TakingAdvances(c: Casting, n: Net, p: PortId, q: PortId)
    requires WellTyped(c, n) && p in n && q in n && Decide(c, n, p, q) == Take
    ensures Missing(Taken(n, p, q), q, p) < Missing(n, p, q)
  {
    FewerMissing(n, Taken(n, p, q), p, q);
  }

  lemma KeysInAnyOrder(n: Net, p: PortId, q: PortId)
    requires p in n && q in n
    ensures WithKey(WithKey(n, p, q), q, p) == WithKey(WithKey(n, q, p), p, q)
    ensures WithKey(WithKey(n, p, q), p, q) == WithKey(n, p, q)
  {
    assert n[p].keys + {q} + {q} == n[p].keys + {q};
  }

  /** A client that leaves its old host for `p` does not make `p` forget the client. */
  lemma TakingKeepsTheOffer(c: Casting, n: Net, p: PortId, q: PortId)
    requires WellTyped(c, n) && p in n && q in n && Decide(c, n, p, q) == Take
    requires Decide(c, Taken(n, p, q), q, p) == Take
    ensures Lists(Taken(Taken(n, p, q), q, p), p, q)
  {
    var m := Taken(n, p, q);
    assert p != q;
    if n[q].kind.Client? {
      assert !n[p].kind.Client?;
      assert m[q] == n[q];
      var h := m[q := m[q].(peers := {})];
      assert p !in m[q].peers;
      assert q !in m[q].peers;
      assert q in Isolate(h, m[q].peers)[p].peers;
    }
  }

  class Network {
    const casting: Casting
    var ports: Net

    constructor (casting: Casting, kinds: map<PortId, Kind>)
      ensures Valid() && this.casting == casting
      ensures ports == map p | p in kinds :: Port(kinds[p], {}, {}, [], true)
    {
      this.casting := casting;
      ports := map p | p in kinds :: Port(kinds[p], {}, {}, [], true);
    }

    ghost predicate Valid()
      reads this
    {
      WellTyped(casting, ports)
    }

    method SetPeers(p: PortId, peers: set<PortId>)
      requires p in ports
      modifies this
      ensures ports == old(ports)[p := old(ports)[p].(peers := peers)]
    {
      ports := ports[p := ports[p].(peers := peers)];
    }

    method SetKeys(p: PortId, keys: set<PortId>)
      requires p in ports
      modifies this
      ensures ports == old(ports)[p := old(ports)[p].(keys := keys)]
    {
      ports := ports[p := ports[p].(keys := keys)];
    }

    // ---------- disconnect() ----------

    method DisconnectAll(p: PortId)
      requires Valid() && p in ports
      modifies this
      ensures Valid() && ports == AfterDisconnectAll(old(ports), p)
      ensures Links(ports) <= Links(old(ports))
      decreases Links(ports), 2
    {
      var kind := ports[p].kind;
      if kind.Managed() {
        ManagerDisconnectAll(p);
        if kind.Keyed() {
          SetKeys(p, {});
        }
      } else if kind.Producer? {
        ProducerDisconnectAll(p);
      } else {
        SlotDisconnectAll(p);
      }
    }

    /** The connections are swapped out before the peers are told. */
    method ManagerDisconnectAll(p: PortId)
      requires Valid() && p in ports && ports[p].kind.Managed()
      modifies this
      ensures Valid()
      ensures p in ports && ports[p := ports[p].(keys := {})] == Isolate(old(ports), {p})
      ensures Links(ports) <= Links(old(ports))
      decreases Links(ports), 1
    {
      var connections := ports[p].peers;
      DroppingKeepsTyping(casting, ports, p, {});
      SetPeers(p, {});
      var todo := connections;
      while todo != {}
        invariant todo <= connections
        invariant Valid() && Told(old(ports), ports, p, connections - todo)
        invariant Links(ports) <= Links(old(ports))
      {
        var connection :| connection in todo;
        NextTold(casting, old(ports), ports, p, todo, connection);
        todo := todo - {connection};
        Disconnect(connection, p);
      }
      assert connections - todo == connections;
      ToldAll(old(ports), ports, p);
    }

    /** A producer has each of its consumers drop every producer. */
    method ProducerDisconnectAll(p: PortId)
      requires Valid() && p in ports && ports[p].kind.Producer?
      modifies this
      ensures Valid() && ports == AfterDisconnectAll(old(ports), p)
      ensures Links(ports) <= Links(old(ports))
      decreases Links(ports), 1
    {
      var consumers := ports[p].peers;
      DroppingKeepsTyping(casting, ports, p, {});
      SetPeers(p, {});
      CutOffAll(p, consumers, old(ports));
      ProducerIsolates(old(ports), p);
    }

    /** `n` is the network before the producer gave up its consumers. */
    method CutOffAll(p: PortId, consumers: set<PortId>, ghost n: Net)
      requires Valid() && WellTyped(casting, n) && Links(ports) <= Links(n)
      requires p in n && n[p].kind.Producer? && n[p].peers == consumers
      requires ports == n[p := n[p].(peers := {})]
      modifies this
      ensures Valid() && ports == Isolate(n[p := n[p].(peers := {})], consumers)
      ensures Links(ports) <= Links(n)
      decreases Links(n), 0
    {
      ghost var done: set<PortId> := {};
      var todo := consumers;
      IsolateNone(ports);
      while todo != {}
        invariant done + todo == consumers
        invariant Valid() && ports == Isolate(n[p := n[p].(peers := {})], done)
        invariant Links(ports) <= Links(n)
      {
        var consumer :| consumer in todo;
        NextConsumer(casting, n, ports, p, done, consumer);
        todo := todo - {consumer};
        done := done + {consumer};
        DisconnectAll(consumer);
      }
      assert done == consumers;
    }

    /** A requester or a client has its peer drop everyone. */
    method SlotDisconnectAll(p: PortId)
      requires Valid() && p in ports && ports[p].kind.Slot()
      modifies this
      ensures Valid() && ports == AfterDisconnectAll(old(ports), p)
      ensures Links(ports) <= Links(old(ports))
      decreases Links(ports), 1
    {
      var connection := ports[p].peers;
      if connection == {} {
        IsolateNone(ports);
        assert ports == ports[p := ports[p].(peers := {})];
        return;
      }
      var peer :| peer in connection;
      SlotHasOnePeer(casting, ports, p, peer);
      DroppingKeepsTyping(casting, ports, p, {});
      SetPeers(p, {});
      FewerLinks(old(ports), ports, p, peer);
      assert connection == {peer};
      DisconnectAll(peer);
    }

    // ---------- disconnect(other) ----------

    method Disconnect(p: PortId, q: PortId)
      requires Valid() && p in ports && q in ports
      modifies this
      ensures Valid() && ports == AfterDisconnect(old(ports), p, q)
      ensures Links(ports) <= Links(old(ports))
      decreases Links(ports), 4
    {
      var kind := ports[p].kind;
      if kind.Slot() {
        if q in ports[p].peers {
          DisconnectAll(p);
        }
      } else {
        RecordDisconnect(p, q);
        KeyForgotten(casting, ports, p, q);
        if kind.Keyed() {
          SetKeys(p, ports[p].keys - {q});
        }
      }
    }

    /** The same steps for a connection manager and for a producer's map. */
    method RecordDisconnect(p: PortId, q: PortId)
      requires Valid() && p in ports && q in ports && !ports[p].kind.Slot()
      modifies this
      ensures Valid()
      ensures p in ports && ForgetKey(ports, p, q) == AfterDisconnect(old(ports), p, q)
      ensures Links(ports) <= Links(old(ports))
      decreases Links(ports), 3
    {
      if q !in ports[p].peers {
        return;
      }
      if ports[q].kind.Slot() {
        SlotHasOnePeer(casting, ports, q, p);
      }
      DroppingKeepsTyping(casting, ports, p, ports[p].peers - {q});
      SetPeers(p, ports[p].peers - {q});
      FewerLinks(old(ports), ports, p, q);
      DroppingThenCalling(old(ports), p, q);
      Disconnect(q, p);
    }

    // ---------- connect(other) ----------

    method Connect(p: PortId, q: PortId) returns (reply: Reply)
      requires Valid() && p in ports && q in ports
      modifies this
      ensures Valid() && (reply, ports) == AfterConnect(casting, old(ports), p, q)
      decreases Missing(ports, p, q), 2, 0
    {
      match ports[p].kind
      case Producer =>
        reply := ProducerConnect(p, q);
      case Requester =>
        reply := SlotConnect(p, q);
      case Client =>
        reply := SlotConnect(p, q);
      case MultiRequester =>
        if !Accepts(casting, ports, p, q) {
          return Refused;
        }
        reply := KeyedConnect(p, q);
      case MultiConsumer =>
        reply := KeyedConnect(p, q);
      case _ =>
        reply := ManagerConnect(p, q);
    }

    /** The index is extended only when the handshake did not throw. */
    method KeyedConnect(p: PortId, q: PortId) returns (reply: Reply)
      requires Valid() && p in ports && q in ports && ports[p].kind.Keyed()
      requires Accepts(casting, ports, p, q)
      modifies this
      ensures Valid() && (reply, ports) == AfterConnect(casting, old(ports), p, q)
      decreases Missing(ports, p, q), 1, 0
    {
      reply := ManagerConnect(p, q);
      if reply == Agreed {
        WithKeyKeepsTyping(casting, ports, p, q);
        SetKeys(p, ports[p].keys + {q});
      }
    }

    method ManagerConnect(p: PortId, q: PortId) returns (reply: Reply)
      requires Valid() && p in ports && q in ports && ports[p].kind.Managed()
      requires Accepts(casting, ports, p, q)
      modifies this
      ensures Valid() && p in ports
      ensures reply == AfterConnect(casting, old(ports), p, q).0
      ensures (if reply == Agreed then WithKey(ports, p, q) else ports)
              == AfterConnect(casting, old(ports), p, q).1
      decreases Missing(ports, p, q), 0, 1
    {
      if q in ports[p].peers {
        return Agreed;
      }
      if ports[p].kind.Exclusive() && ports[p].peers != {} {
        return Refused;
      }
      reply := Offer(p, q);
    }

    /** `ConnectionManager::connect`: record the peer, ask it, and forget it again if it refuses. */
    method Offer(p: PortId, q: PortId) returns (reply: Reply)
      requires Valid() && p in ports && q in ports && ports[p].kind.Managed()
      requires Decide(casting, ports, p, q) == Take
      modifies this
      ensures Valid() && p in ports
      ensures reply == AfterConnect(casting, old(ports), p, q).0
      ensures (if reply == Agreed then WithKey(ports, p, q) else ports)
              == AfterConnect(casting, old(ports), p, q).1
      decreases Missing(ports, p, q), 0, 0
    {
      TakingKeepsTyping(casting, ports, p, q);
      AskingThePeer(casting, ports, p, q);
      SetPeers(p, ports[p].peers + {q});
      assert ports == Taken(old(ports), p, q);
      FewerMissing(old(ports), ports, p, q);
      reply := Connect(q, p);
      if reply == Refused {
        assert (ports[p].peers - {q}) == old(ports)[p].peers;
        SetPeers(p, if ports[p].kind.Exclusive() then {} else ports[p].peers - {q});
        assert ports == old(ports);
      }
    }

    /** A producer records the consumer before asking it, and does not take that back. */
    method ProducerConnect(p: PortId, q: PortId) returns (reply: Reply)
      requires Valid() && p in ports && q in ports && ports[p].kind.Producer?
      modifies this
      ensures Valid() && (reply, ports) == AfterConnect(casting, old(ports), p, q)
      decreases Missing(ports, p, q), 1, 0
    {
      if !Accepts(casting, ports, p, q) {
        return Refused;
      }
      if q in ports[p].peers {
        return Agreed;
      }
      TakingKeepsTyping(casting, ports, p, q);
      TakingAdvances(casting, ports, p, q);
      PassingOn(casting, ports, p, q);
      SetPeers(p, ports[p].peers + {q});
      assert ports == Taken(old(ports), p, q);
      reply := Connect(q, p);
    }

    /** A requester keeps its responder; a client leaves its host for the new one. */
    method SlotConnect(p: PortId, q: PortId) returns (reply: Reply)
      requires Valid() && p in ports && q in ports && ports[p].kind.Slot()
      modifies this
      ensures Valid() && (reply, ports) == AfterConnect(casting, old(ports), p, q)
      decreases Missing(ports, p, q), 1, 1
    {
      if q in ports[p].peers {
        return Agreed;
      }
      if !Accepts(casting, ports, p, q) {
        return Refused;
      }
      if ports[p].kind.Requester? && ports[p].peers != {} {
        return Refused;
      }
      reply := SlotTake(p, q);
    }

    method SlotTake(p: PortId, q: PortId) returns (reply: Reply)
      requires Valid() && p in ports && q in ports && ports[p].kind.Slot()
      requires Decide(casting, ports, p, q) == Take
      modifies this
      ensures Valid() && (reply, ports) == AfterConnect(casting, old(ports), p, q)
      decreases Missing(ports, p, q), 1, 0
    {
      TakingKeepsTyping(casting, ports, p, q);
      TakingAdvances(casting, ports, p, q);
      PassingOn(casting, ports, p, q);
      SlotTakes(casting, ports, p, q);
      if ports[p].peers != {} {
        DisconnectAll(p);
      } else {
        FreeSlotStays(ports, p);
      }
      SetPeers(p, {q});
      reply := Connect(q, p);
    }

    // ---------- send(data) ----------

    method Send(p: PortId, t: Item)
      requires Valid() && p in ports && ports[p].kind.Producer?
      modifies this
      ensures Valid() && ports == AfterSend(old(ports), p, t)
    {
      var consumers := ports[p].peers;
      var todo := consumers;
      while todo != {}
        invariant todo <= consumers
        invariant ports.Keys == old(ports).Keys
        invariant forall x <- ports ::
          ports[x] == if x in consumers && x !in todo then AfterSend(old(ports), p, t)[x] else old(ports)[x]
      {
        var consumer :| consumer in todo;
        todo := todo - {consumer};
        Receive(consumer, p, t);
      }
      assert ports == AfterSend(old(ports), p, t);
    }

    /** A multi consumer's queue map gains the key if it is not there. */
    method Receive(x: PortId, from: PortId, t: Item)
      requires x in ports
      modifies this
      ensures ports == old(ports)[x := old(ports)[x].(
                                    inbox := if old(ports)[x].TakesData()
                                             then old(ports)[x].inbox + [(from, t)] else old(ports)[x].inbox,
                                    keys := if old(ports)[x].kind.MultiConsumer?
                                            then old(ports)[x].keys + {from} else old(ports)[x].keys)]
    {
      if ports[x].kind.Consumer? && !ports[x].active {
        return;
      }
      ports := ports[x := ports[x].(inbox := ports[x].inbox + [(from, t)])];
      if ports[x].kind.MultiConsumer? {
        SetKeys(x, ports[x].keys + {from});
      }
    }

    method Deactivate(p: PortId)
      requires Valid() && p in ports && (ports[p].kind.Consumer? || ports[p].kind.MultiConsumer?)
      modifies this
      ensures Valid() && ports == AfterDeactivate(old(ports), p)
    {
      ports := ports[p := ports[p].(active := false)];
    }
  }
}

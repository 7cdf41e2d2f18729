/** What single calls of the connection protocol do to the links of the whole network. */
module PortTheorems {
  import opened Ports
  import opened PortNetwork

  ghost predicate Mutual(n: Net) {
    forall a <- n, b <- n :: Lists(n, a, b) <==> Lists(n, b, a)
  }

  /** A link recorded at one end only is a producer's, towards a consumer that takes one producer. */
  ghost predicate HalfLinksAreOffers(n: Net) {
    forall a <- n, b <- n :: Lists(n, a, b) && !Lists(n, b, a) ==>
      n[a].kind.Producer? && n[b].kind == Consumer(Single)
  }

  /** Queue keys and slave keys are the connections. */
  ghost predicate IndexAgrees(n: Net) {
    forall p <- n :: n[p].kind.MultiConsumer? || n[p].kind.MultiRequester? ==> n[p].keys == n[p].peers
  }

  ghost predicate Sound(c: Casting, n: Net) {
    WellTyped(c, n) && HalfLinksAreOffers(n) && IndexAgrees(n)
  }

  /** The kinds of two linked ports: a producer's consumer, a requester's responder, a client's host, or
      any two that do not check each other's type. */
  predicate LinkedKinds(k: Kind, l: Kind) {
    match k
    case Producer => l.Consumer? || l.MultiConsumer?
    case Requester => l.Responder?
    case MultiRequester => l.Responder?
    case Client => l.Host?
    case Host => !l.Producer? && !l.Requester? && !l.MultiRequester?
    case Responder => !l.Producer? && !l.Client?
    case _ => !l.Requester? && !l.MultiRequester? && !l.Client?
  }

  /** What a reader may rely on at every port, kind by kind. */
  ghost predicate Orderly(c: Casting, n: Net) {
    forall p <- n ::
      && (n[p].kind.MultiConsumer? || n[p].kind.MultiRequester? ==> n[p].keys == n[p].peers)
      && (n[p].kind.Requester? || n[p].kind.Client? || n[p].kind == Consumer(Single) ==>
            forall q <- n[p].peers, r <- n[p].peers :: q == r)
      && forall q <- n[p].peers ::
           && q in n && LinkedKinds(n[p].kind, n[q].kind)
           && (n[p].kind.Producer? || n[p].kind.Requester? || n[p].kind.MultiRequester? || n[p].kind.Client? ==>
                 (p, q) in c)
           && (p !in n[q].peers ==> n[p].kind.Producer? && n[q].kind == Consumer(Single))
  }

  lemma SoundIsOrderly(c: Casting, n: Net)
    requires Sound(c, n)
    ensures Orderly(c, n)
  {
    forall p, q | p in n && q in n[p].peers
      ensures q in n && LinkedKinds(n[p].kind, n[q].kind)
      ensures n[p].kind.Producer? || n[p].kind.Requester? || n[p].kind.MultiRequester? || n[p].kind.Client? ==> (p, q) in c
      ensures p !in n[q].peers ==> n[p].kind.Producer? && n[q].kind == Consumer(Single)
    {
      assert Accepts(c, n, p, q);
      if p in n[q].peers {
        assert Accepts(c, n, q, p);
      }
    }
    assert forall p <- n :: WellTypedAt(c, n, p);
  }

  ghost predicate Touches(s: set<PortId>, a: PortId, b: PortId) {
    a in s || b in s
  }

  ghost predicate IsPair(p: PortId, q: PortId, a: PortId, b: PortId) {
    (a == p && b == q) || (a == q && b == p)
  }

  /** The ports of `m` are those of `n`, with the same kinds and the same data taken in. */
  ghost predicate OnlyLinksDiffer(n: Net, m: Net) {
    && m.Keys == n.Keys
    && forall x <- n :: m[x].kind == n[x].kind && m[x].inbox == n[x].inbox && m[x].active == n[x].active
  }

  /** A requester or a client has no peer besides the one it is known to have. */
  lemma OnePeer(c: Casting, n: Net, p: PortId, q: PortId)
    requires WellTyped(c, n) && Lists(n, p, q) && (n[p].kind.Slot() || n[p].kind.Exclusive())
    ensures n[p].peers == {q}
  {
  }

  // ---------- Half-links after a disconnect, in any network ----------

  lemma IsolateLinks(n: Net, cut: set<PortId>)
    ensures OnlyLinksDiffer(n, Isolate(n, cut))
    ensures forall a, b :: Lists(Isolate(n, cut), a, b) <==>
                           Lists(n, a, b) && a !in cut && !(b in cut && Lists(n, b, a))
  {
  }

  lemma DisconnectAllLinks(n: Net, p: PortId)
    requires p in n && (!n[p].kind.Managed() ==> p !in n[p].peers)
    ensures OnlyLinksDiffer(n, AfterDisconnectAll(n, p))
    ensures forall a, b :: Lists(AfterDisconnectAll(n, p), a, b) <==>
                           && Lists(n, a, b) && a != p && a !in Emptied(n, p)
                           && !(b in Emptied(n, p) && Lists(n, b, a))
  {
    var h := n[p := n[p].(peers := {})];
    IsolateLinks(n, {p});
    IsolateLinks(h, n[p].peers);
  }

  ghost predicate Kept(n: Net, p: PortId, q: PortId, a: PortId, b: PortId)
    requires p in n && q in n
  {
    if !Lists(n, p, q) then true
    else if n[p].kind.Requester? || n[p].kind.Client? then a != p && a != q && !(b == q && Lists(n, q, a))
    else if !n[q].kind.Requester? && !n[q].kind.Client? then !IsPair(p, q, a, b)
    else if Lists(n, q, p) then a != p && !IsPair(p, q, a, b) && !(b == p && Lists(n, p, a))
    else !(a == p && b == q)
  }

  lemma ForgetLinks(n: Net, p: PortId, q: PortId)
    requires p in n
    ensures OnlyLinksDiffer(n, Forget(n, p, q))
    ensures forall a, b :: Lists(Forget(n, p, q), a, b) <==> Lists(n, a, b) && !(a == p && b == q)
  {
  }

  lemma ForgetBothLinks(n: Net, p: PortId, q: PortId)
    requires p in n && q in n
    ensures var m := Forget(Forget(n, p, q), q, p);
            OnlyLinksDiffer(n, m) && forall a, b :: Lists(m, a, b) <==> Lists(n, a, b) && !IsPair(p, q, a, b)
  {
    ForgetLinks(n, p, q);
    ForgetLinks(Forget(n, p, q), q, p);
  }

  /** The peer is a requester or a client, which hangs up on the caller. */
  lemma HangingUpLinks(n: Net, p: PortId, q: PortId)
    requires p in n && q in n
    ensures var m := Isolate(Forget(Forget(n, p, q), q, p), {p});
            && OnlyLinksDiffer(n, m)
            && forall a, b :: Lists(m, a, b) <==>
                 Lists(n, a, b) && a != p && !IsPair(p, q, a, b) && !(b == p && Lists(n, p, a))
  {
    ForgetBothLinks(n, p, q);
    IsolateLinks(Forget(Forget(n, p, q), q, p), {p});
  }

  lemma DisconnectLinks(n: Net, p: PortId, q: PortId)
    requires p in n && q in n
    requires n[p].kind.Slot() && Lists(n, p, q) ==> n[p].peers == {q} && p != q
    ensures OnlyLinksDiffer(n, AfterDisconnect(n, p, q))
    ensures forall a, b :: Lists(AfterDisconnect(n, p, q), a, b) <==> Lists(n, a, b) && Kept(n, p, q, a, b)
  {
    if Lists(n, p, q) {
      if n[p].kind.Slot() {
        DisconnectAllLinks(n, p);
      } else if !n[q].kind.Slot() {
        ForgetBothLinks(n, p, q);
      } else if Lists(n, q, p) {
        HangingUpLinks(n, p, q);
      } else {
        ForgetLinks(n, p, q);
      }
    }
  }

  // ---------- How far a disconnect reaches ----------

  /** The ports that `p.disconnect()` leaves without any peer, besides `p` itself. */
  ghost function Emptied(n: Net, p: PortId): set<PortId>
    requires p in n
  {
    match n[p].kind
    case Producer => n[p].peers
    case Requester => n[p].peers
    case Client => n[p].peers
    case _ => {p}
  }

  lemma DisconnectAllReach(c: Casting, n: Net, p: PortId)
    requires WellTyped(c, n) && Mutual(n) && p in n
    ensures OnlyLinksDiffer(n, AfterDisconnectAll(n, p))
    ensures forall a, b :: Lists(AfterDisconnectAll(n, p), a, b) <==>
                           Lists(n, a, b) && !Touches(Emptied(n, p), a, b)
  {
    DisconnectAllLinks(n, p);
  }

  /** The ports that `p.disconnect(q)` leaves without any peer: the far end of a requester's or a
      client's link, whichever of the two the call is made on. */
  ghost function HungUpOn(n: Net, p: PortId, q: PortId): set<PortId>
    requires p in n && q in n
  {
    if !Lists(n, p, q) then {}
    else if n[p].kind.Requester? || n[p].kind.Client? then {q}
    else if n[q].kind.Requester? || n[q].kind.Client? then {p}
    else {}
  }

  lemma DisconnectReach(c: Casting, n: Net, p: PortId, q: PortId)
    requires WellTyped(c, n) && Mutual(n) && p in n && q in n
    ensures OnlyLinksDiffer(n, AfterDisconnect(n, p, q))
    ensures forall a, b :: Lists(AfterDisconnect(n, p, q), a, b) <==>
                           Lists(n, a, b) && !IsPair(p, q, a, b) && !Touches(HungUpOn(n, p, q), a, b)
  {
    if n[p].kind.Slot() && Lists(n, p, q) {
      OnePeer(c, n, p, q);
    }
    DisconnectLinks(n, p, q);
    assert forall a, b | Lists(n, a, b) ::
      Kept(n, p, q, a, b) <==> !IsPair(p, q, a, b) && !Touches(HungUpOn(n, p, q), a, b);
  }

  // ---------- What every disconnect keeps ----------

  lemma IsolateKeepsIndex(n: Net, cut: set<PortId>)
    requires IndexAgrees(n)
    ensures IndexAgrees(Isolate(n, cut))
  {
  }

  lemma DisconnectAllKeepsTyping(c: Casting, n: Net, p: PortId)
    requires Sound(c, n) && p in n
    ensures WellTyped(c, AfterDisconnectAll(n, p)) && IndexAgrees(AfterDisconnectAll(n, p))
  {
    if n[p].kind.Managed() {
      IsolateKeepsTyping(c, n, {p});
      IsolateKeepsIndex(n, {p});
    } else {
      var h := n[p := n[p].(peers := {})];
      DroppingKeepsTyping(c, n, p, {});
      assert IndexAgrees(h);
      IsolateKeepsTyping(c, h, n[p].peers);
      IsolateKeepsIndex(h, n[p].peers);
    }
  }

  lemma DisconnectAllKeeps(c: Casting, n: Net, p: PortId)
    requires Sound(c, n) && p in n
    ensures Sound(c, AfterDisconnectAll(n, p)) && OnlyLinksDiffer(n, AfterDisconnectAll(n, p))
    ensures Mutual(n) ==> Mutual(AfterDisconnectAll(n, p))
  {
    DisconnectAllKeepsTyping(c, n, p);
    DisconnectAllLinks(n, p);
  }

  lemma ForgetKeeps(c: Casting, n: Net, p: PortId, q: PortId)
    requires WellTyped(c, n) && IndexAgrees(n) && p in n
    ensures WellTyped(c, Forget(n, p, q)) && IndexAgrees(Forget(n, p, q))
  {
  }

  lemma DisconnectLinkKeepsTyping(c: Casting, n: Net, p: PortId, q: PortId)
    requires WellTyped(c, n) && IndexAgrees(n) && p in n && q in n
    requires !n[p].kind.Slot() && Lists(n, p, q) && (n[q].kind.Slot() ==> Lists(n, q, p))
    ensures WellTyped(c, AfterDisconnect(n, p, q)) && IndexAgrees(AfterDisconnect(n, p, q))
  {
    var h := Forget(Forget(n, p, q), q, p);
    ForgetKeeps(c, n, p, q);
    ForgetKeeps(c, Forget(n, p, q), q, p);
    IsolateKeepsTyping(c, h, {p});
    IsolateKeepsIndex(h, {p});
  }

  lemma DisconnectLinkKeepsEnds(n: Net, p: PortId, q: PortId)
    requires HalfLinksAreOffers(n) && p in n && q in n && !n[p].kind.Slot() && Lists(n, p, q)
    ensures HalfLinksAreOffers(AfterDisconnect(n, p, q))
    ensures Mutual(n) ==> Mutual(AfterDisconnect(n, p, q))
  {
    DisconnectLinks(n, p, q);
  }

  lemma DisconnectKeeps(c: Casting, n: Net, p: PortId, q: PortId)
    requires Sound(c, n) && p in n && q in n
    ensures Sound(c, AfterDisconnect(n, p, q)) && OnlyLinksDiffer(n, AfterDisconnect(n, p, q))
    ensures Mutual(n) ==> Mutual(AfterDisconnect(n, p, q))
  {
    if !Lists(n, p, q) {
      assert n[p].keys - {q} == n[p].keys;
      assert ForgetKey(n, p, q) == n;
    } else if n[p].kind.Slot() {
      OnePeer(c, n, p, q);
      DisconnectAllKeeps(c, n, p);
    } else {
      assert n[q].kind.Slot() ==> Lists(n, q, p);
      DisconnectLinkKeepsTyping(c, n, p, q);
      DisconnectLinkKeepsEnds(n, p, q);
      DisconnectLinks(n, p, q);
    }
  }

  // ---------- When a connect is refused, and what a refusal leaves behind ----------

  /** The ports whose type `x` checks are of the right kind and type. */
  predicate TypesMatch(c: Casting, n: Net, x: PortId, y: PortId)
    requires x in n && y in n
  {
    match n[x].kind
    case Producer => (n[y].kind.Consumer? || n[y].kind.MultiConsumer?) && (x, y) in c
    case Requester => n[y].kind.Responder? && (x, y) in c
    case MultiRequester => n[y].kind.Responder? && (x, y) in c
    case Client => n[y].kind.Host? && (x, y) in c
    case _ => true
  }

  /** What `x` checks before it takes `y` as a new peer. */
  predicate Willing(c: Casting, n: Net, x: PortId, y: PortId)
    requires x in n && y in n
  {
    TypesMatch(c, n, x, y) && (n[x].kind.Requester? || n[x].kind == Consumer(Single) ==> n[x].peers == {})
  }

  lemma WillingIff(c: Casting, n: Net, x: PortId, y: PortId)
    requires x in n && y in n
    ensures Willing(c, n, x, y) <==> Accepts(c, n, x, y) && (n[x].kind.Exclusive() ==> n[x].peers == {})
  {
  }

  lemma CallerDecides(c: Casting, n: Net, p: PortId, q: PortId)
    requires WellTyped(c, n) && p in n && q in n
    ensures Decide(c, n, p, q) == Have <==> Lists(n, p, q)
    ensures Decide(c, n, p, q) == Take <==> !Lists(n, p, q) && Willing(c, n, p, q)
  {
    WillingIff(c, n, p, q);
    assert Lists(n, p, q) ==> Accepts(c, n, p, q);
  }

  lemma PeerDecides(c: Casting, n: Net, p: PortId, q: PortId)
    requires WellTyped(c, n) && p in n && q in n && Decide(c, n, p, q) == Take
    ensures Decide(c, Taken(n, p, q), q, p) != Decline <==> Lists(n, q, p) || Willing(c, n, q, p)
  {
    WillingIff(c, n, p, q);
    WillingIff(c, n, q, p);
    if n[p].kind.Client? && n[p].peers != {} {
      var host :| host in n[p].peers;
      OnePeer(c, n, p, host);
      DisconnectAllLinks(n, p);
    }
  }

  /** A new link needs the caller to be willing, and its peer too unless that already lists the
      caller; a link the caller has needs nothing. */
  lemma ConnectAgreesIff(c: Casting, n: Net, p: PortId, q: PortId)
    requires WellTyped(c, n) && p in n && q in n
    ensures AfterConnect(c, n, p, q).0 == Agreed <==>
            || Lists(n, p, q)
            || (Willing(c, n, p, q) && (Lists(n, q, p) || Willing(c, n, q, p)))
  {
    CallerDecides(c, n, p, q);
    if Decide(c, n, p, q) == Take {
      PeerDecides(c, n, p, q);
    }
  }

  /** Before any call: `p` is a producer about to be turned away by a consumer that has a producer. */
  predicate TurnedAway(c: Casting, n: Net, p: PortId, q: PortId)
    requires p in n && q in n
  {
    && n[p].kind.Producer? && (p, q) in c && !Lists(n, p, q)
    && n[q].kind == Consumer(Single) && n[q].peers != {} && p !in n[q].peers
  }

  /** A refused connect changes nothing, unless a producer was turned away: then exactly its own
      half of the link stays. */
  lemma RefusalLeaves(c: Casting, n: Net, p: PortId, q: PortId)
    requires Sound(c, n) && p in n && q in n
    requires AfterConnect(c, n, p, q).0 == Refused
    ensures AfterConnect(c, n, p, q).1 ==
            if TurnedAway(c, n, p, q) then n[p := n[p].(peers := n[p].peers + {q})] else n
  {
  }

  // ---------- How far a connect reaches ----------

  /** The hosts that clients leave when `p` and `q` become linked. */
  ghost function LeftHosts(n: Net, p: PortId, q: PortId): set<PortId>
    requires p in n && q in n
  {
    if Lists(n, p, q) then {}
    else (if n[p].kind.Client? then n[p].peers else {}) + (if n[q].kind.Client? then n[q].peers else {})
  }

  /** The network after a client among `p` and `q` has left its host. */
  ghost function Freed(n: Net, p: PortId, q: PortId): Net
    requires p in n && q in n
  {
    if n[p].kind.Client? then AfterDisconnectAll(n, p)
    else if n[q].kind.Client? then AfterDisconnectAll(n, q)
    else n
  }

  ghost function Record(n: Net, p: PortId, q: PortId): Net
    requires p in n
  {
    n[p := n[p].(peers := n[p].peers + {q}, keys := if n[p].kind.Keyed() then n[p].keys + {q} else n[p].keys)]
  }

  /** Both ends record each other. */
  ghost function Joined(n: Net, p: PortId, q: PortId): Net
    requires p in n && q in n
  {
    Record(Record(n, p, q), q, p)
  }

  function AddPeer(n: Net, p: PortId, q: PortId): Net
    requires p in n
  {
    n[p := n[p].(peers := n[p].peers + {q})]
  }

  lemma JoinedEitherWay(n: Net, p: PortId, q: PortId)
    requires p in n && q in n
    ensures Joined(n, p, q) == Joined(n, q, p)
  {
  }

  lemma JoinedLinks(n: Net, p: PortId, q: PortId)
    requires p in n && q in n
    ensures OnlyLinksDiffer(n, Joined(n, p, q))
    ensures forall a, b :: Lists(Joined(n, p, q), a, b) <==> IsPair(p, q, a, b) || Lists(n, a, b)
  {
  }

  lemma KeysComeLast(n: Net, p: PortId, q: PortId)
    requires p in n && q in n
    ensures WithKey(WithKey(AddPeer(AddPeer(n, p, q), q, p), q, p), p, q) == Joined(n, p, q)
  {
    if p == q {
      assert n[p].peers + {p} + {p} == n[p].peers + {p};
      assert n[p].keys + {p} + {p} == n[p].keys + {p};
    }
  }

  /** A client leaves its old host for `p`, which has already recorded it. */
  lemma LeavingForTheOffer(n: Net, p: PortId, q: PortId)
    requires p in n && q in n && p != q && n[q].kind.Client? && n[q].peers !! {p, q}
    ensures AfterDisconnectAll(AddPeer(n, p, q), q) == AddPeer(AfterDisconnectAll(n, q), p, q)
  {
    var hosts := n[q].peers;
    var a, b := n[q := n[q].(peers := {})], AddPeer(n, p, q)[q := n[q].(peers := {})];
    assert AfterDisconnectAll(AddPeer(n, p, q), q) == Isolate(b, hosts);
    forall x | x in n ensures Isolate(b, hosts)[x] == AddPeer(Isolate(a, hosts), p, q)[x] {
      var gone := Gone(a, hosts, x);
      assert gone == Gone(b, hosts, x);
      assert (n[p].peers + {q}) - gone == (n[p].peers - gone) + {q};
    }
  }

  /** Two new peers that take each other record each other, and then add their keys. */
  lemma BothTake(c: Casting, n: Net, p: PortId, q: PortId)
    requires p in n && q in n && Decide(c, n, p, q) == Take && Decide(c, Taken(n, p, q), q, p) == Take
    requires Taken(Taken(n, p, q), q, p) == AddPeer(AddPeer(Freed(n, p, q), p, q), q, p)
    ensures AfterConnect(c, n, p, q) == (Agreed, Joined(Freed(n, p, q), p, q))
  {
    KeysComeLast(Freed(n, p, q), p, q);
  }

  lemma NewSelfLink(c: Casting, n: Net, p: PortId)
    requires WellTyped(c, n) && p in n && !Lists(n, p, p) && Willing(c, n, p, p)
    ensures AfterConnect(c, n, p, p) == (Agreed, Joined(Freed(n, p, p), p, p))
  {
    var m := Taken(n, p, p);
    KeysComeLast(Freed(n, p, p), p, p);
    assert m[p].peers + {p} == m[p].peers;
    assert AddPeer(m, p, p) == m;
  }

  lemma NewLinkOfCalledClient(c: Casting, n: Net, p: PortId, q: PortId)
    requires WellTyped(c, n) && p in n && q in n && !Lists(n, p, q) && !Lists(n, q, p) && n[q].kind.Client?
    requires Willing(c, n, p, q) && Willing(c, n, q, p)
    ensures AfterConnect(c, n, p, q) == (Agreed, Joined(Freed(n, p, q), p, q))
  {
    LeavingForTheOffer(n, p, q);
    BothTake(c, n, p, q);
  }

  lemma NewLinkOfCallingClient(c: Casting, n: Net, p: PortId, q: PortId)
    requires WellTyped(c, n) && p in n && q in n && !Lists(n, p, q) && !Lists(n, q, p) && n[p].kind.Client?
    requires Willing(c, n, p, q) && Willing(c, n, q, p)
    ensures AfterConnect(c, n, p, q) == (Agreed, Joined(Freed(n, p, q), p, q))
  {
    DisconnectAllLinks(n, p);
    assert !Lists(Taken(n, p, q), q, p);
    BothTake(c, n, p, q);
  }

  /** What a connect that both ends are willing to make leaves behind. */
  lemma NewLink(c: Casting, n: Net, p: PortId, q: PortId)
    requires WellTyped(c, n) && p in n && q in n && !Lists(n, p, q) && !Lists(n, q, p)
    requires Willing(c, n, p, q) && Willing(c, n, q, p)
    ensures AfterConnect(c, n, p, q) == (Agreed, Joined(Freed(n, p, q), p, q))
  {
    if p == q {
      NewSelfLink(c, n, p);
    } else if n[q].kind.Client? {
      NewLinkOfCalledClient(c, n, p, q);
    } else if n[p].kind.Client? {
      NewLinkOfCallingClient(c, n, p, q);
    } else {
      BothTake(c, n, p, q);
    }
  }

  /** It makes no difference which end starts. */
  lemma ConnectFromEitherEnd(c: Casting, n: Net, p: PortId, q: PortId)
    requires Sound(c, n) && Mutual(n) && p in n && q in n
    ensures AfterConnect(c, n, p, q).0 == AfterConnect(c, n, q, p).0
    ensures AfterConnect(c, n, p, q).0 == Agreed ==> AfterConnect(c, n, p, q) == AfterConnect(c, n, q, p)
  {
    ConnectAgreesIff(c, n, p, q);
    ConnectAgreesIff(c, n, q, p);
    if Willing(c, n, p, q) && Willing(c, n, q, p) && !Lists(n, p, q) {
      NewLink(c, n, p, q);
      NewLink(c, n, q, p);
      JoinedEitherWay(Freed(n, p, q), p, q);
    } else if Lists(n, p, q) {
      LinkedAlready(c, n, p, q);
      LinkedAlready(c, n, q, p);
    }
  }

  lemma LinkedAlready(c: Casting, n: Net, p: PortId, q: PortId)
    requires Sound(c, n) && p in n && q in n && Lists(n, p, q)
    ensures AfterConnect(c, n, p, q) == (Agreed, n)
  {
    assert Accepts(c, n, p, q);
    assert n[p].kind.Keyed() ==> n[p].keys + {q} == n[p].keys;
    assert WithKey(n, p, q) == n;
  }

  /** A new link touches nothing else, except that a client leaves its old host, which then loses
      all its clients. */
  lemma ConnectReach(c: Casting, n: Net, p: PortId, q: PortId)
    requires Sound(c, n) && Mutual(n) && p in n && q in n
    requires AfterConnect(c, n, p, q).0 == Agreed
    ensures OnlyLinksDiffer(n, AfterConnect(c, n, p, q).1)
    ensures forall a, b :: Lists(AfterConnect(c, n, p, q).1, a, b) <==>
                           IsPair(p, q, a, b) || (Lists(n, a, b) && !Touches(LeftHosts(n, p, q), a, b))
  {
    if Lists(n, p, q) {
      LinkedAlready(c, n, p, q);
    } else {
      ConnectAgreesIff(c, n, p, q);
      NewLink(c, n, p, q);
      FreedLinks(c, n, p, q);
      JoinedLinks(Freed(n, p, q), p, q);
    }
  }

  lemma FreedLinks(c: Casting, n: Net, p: PortId, q: PortId)
    requires WellTyped(c, n) && Mutual(n) && p in n && q in n && !Lists(n, p, q)
    requires Willing(c, n, p, q) && Willing(c, n, q, p)
    ensures var m := Freed(n, p, q);
            && OnlyLinksDiffer(n, m)
            && forall a, b :: Lists(m, a, b) <==> Lists(n, a, b) && !Touches(LeftHosts(n, p, q), a, b)
  {
    if n[p].kind.Client? {
      assert LeftHosts(n, p, q) == n[p].peers;
      DisconnectAllReach(c, n, p);
    } else if n[q].kind.Client? {
      assert LeftHosts(n, p, q) == n[q].peers;
      DisconnectAllReach(c, n, q);
    }
  }

  // ---------- What every connect keeps ----------

  lemma RecordKeeps(c: Casting, n: Net, p: PortId, q: PortId)
    requires WellTyped(c, n) && IndexAgrees(n) && p in n && q in n && Accepts(c, n, p, q)
    requires n[p].kind.Exclusive() || n[p].kind.Slot() ==> n[p].peers <= {q}
    ensures WellTyped(c, Record(n, p, q)) && IndexAgrees(Record(n, p, q))
  {
    var m := Record(n, p, q);
    forall x | x in m ensures forall y <- m[x].peers :: Accepts(c, m, x, y) {
      assert forall y <- n[x].peers :: Accepts(c, n, x, y);
    }
  }

  lemma JoinedKeeps(c: Casting, n: Net, p: PortId, q: PortId)
    requires Sound(c, n) && p in n && q in n && p != q
    requires Accepts(c, n, p, q) && (n[p].kind.Exclusive() || n[p].kind.Slot() ==> n[p].peers <= {q})
    requires Accepts(c, n, q, p) && (n[q].kind.Exclusive() || n[q].kind.Slot() ==> n[q].peers <= {p})
    ensures Sound(c, Joined(n, p, q))
  {
    RecordKeeps(c, n, p, q);
    RecordKeeps(c, Record(n, p, q), q, p);
    JoinedLinks(n, p, q);
  }

  /** A consumer takes up the offer of a producer it once turned away. */
  lemma OfferTakenUp(c: Casting, n: Net, p: PortId, q: PortId)
    requires Sound(c, n) && p in n && q in n && !Lists(n, p, q) && Lists(n, q, p)
    requires Willing(c, n, p, q)
    ensures AfterConnect(c, n, p, q) == (Agreed, Joined(n, p, q))
  {
    assert n[q].kind.Producer? && n[p].kind == Consumer(Single) && p != q;
    assert n[q].peers + {p} == n[q].peers;
    assert Accepts(c, n, q, p);
    assert AddPeer(n, p, q) == Joined(n, p, q);
  }

  lemma FreedKeeps(c: Casting, n: Net, p: PortId, q: PortId)
    requires Sound(c, n) && p in n && q in n
    ensures Sound(c, Freed(n, p, q)) && OnlyLinksDiffer(n, Freed(n, p, q))
    ensures Mutual(n) ==> Mutual(Freed(n, p, q))
  {
    if n[p].kind.Client? {
      DisconnectAllKeeps(c, n, p);
    } else if n[q].kind.Client? {
      DisconnectAllKeeps(c, n, q);
    }
  }

  /** A host or a consumer may be connected to itself. */
  lemma SelfLinkKeeps(c: Casting, n: Net, p: PortId)
    requires Sound(c, n) && p in n && Accepts(c, n, p, p)
    requires n[p].kind.Exclusive() || n[p].kind.Slot() ==> n[p].peers <= {p}
    ensures Sound(c, Joined(n, p, p))
  {
    RecordKeeps(c, n, p, p);
    RecordKeeps(c, Record(n, p, p), p, p);
    JoinedLinks(n, p, p);
  }

  lemma NewLinkKeeps(c: Casting, n: Net, p: PortId, q: PortId)
    requires Sound(c, n) && p in n && q in n && Willing(c, n, p, q) && Willing(c, n, q, p)
    ensures var m := Joined(Freed(n, p, q), p, q); Sound(c, m) && OnlyLinksDiffer(n, m)
    ensures Mutual(n) ==> Mutual(Joined(Freed(n, p, q), p, q))
  {
    var m := Freed(n, p, q);
    FreedKeeps(c, n, p, q);
    JoinedLinks(m, p, q);
    FreedStaysWilling(c, n, p, q);
    if p == q {
      SelfLinkKeeps(c, m, p);
    } else {
      JoinedKeeps(c, m, p, q);
    }
  }

  lemma OfferTakenUpKeeps(c: Casting, n: Net, p: PortId, q: PortId)
    requires Sound(c, n) && p in n && q in n && !Lists(n, p, q) && Lists(n, q, p) && Willing(c, n, p, q)
    ensures Sound(c, Joined(n, p, q)) && OnlyLinksDiffer(n, Joined(n, p, q)) && !Mutual(n)
  {
    OfferTakenUp(c, n, p, q);
    JoinedKeeps(c, n, p, q);
    JoinedLinks(n, p, q);
  }

  lemma AgreementKeeps(c: Casting, n: Net, p: PortId, q: PortId)
    requires Sound(c, n) && p in n && q in n && AfterConnect(c, n, p, q).0 == Agreed
    ensures Sound(c, AfterConnect(c, n, p, q).1) && OnlyLinksDiffer(n, AfterConnect(c, n, p, q).1)
    ensures Mutual(n) ==> Mutual(AfterConnect(c, n, p, q).1)
  {
    ConnectAgreesIff(c, n, p, q);
    if Lists(n, p, q) {
      LinkedAlready(c, n, p, q);
    } else if Lists(n, q, p) {
      OfferTakenUp(c, n, p, q);
      OfferTakenUpKeeps(c, n, p, q);
    } else {
      NewLink(c, n, p, q);
      NewLinkKeeps(c, n, p, q);
    }
  }

  lemma FreedStaysWilling(c: Casting, n: Net, p: PortId, q: PortId)
    requires WellTyped(c, n) && p in n && q in n && Willing(c, n, p, q) && Willing(c, n, q, p)
    ensures var m := Freed(n, p, q);
            && p in m && m[p].kind == n[p].kind && q in m && m[q].kind == n[q].kind
            && Accepts(c, m, p, q) && (n[p].kind.Exclusive() || n[p].kind.Slot() ==> m[p].peers == {})
            && Accepts(c, m, q, p) && (n[q].kind.Exclusive() || n[q].kind.Slot() ==> m[q].peers == {})
  {
  }

  lemma AddPeerLinks(n: Net, p: PortId, q: PortId)
    requires p in n && q in n
    ensures OnlyLinksDiffer(n, AddPeer(n, p, q))
    ensures forall a, b :: Lists(AddPeer(n, p, q), a, b) <==> Lists(n, a, b) || (a == p && b == q)
  {
  }

  lemma TurningAwayKeeps(c: Casting, n: Net, p: PortId, q: PortId)
    requires Sound(c, n) && p in n && q in n && TurnedAway(c, n, p, q)
    ensures Sound(c, AddPeer(n, p, q)) && OnlyLinksDiffer(n, AddPeer(n, p, q)) && !Mutual(AddPeer(n, p, q))
  {
    var m := AddPeer(n, p, q);
    AddPeerLinks(n, p, q);
    assert m == Record(n, p, q);
    RecordKeeps(c, n, p, q);
    assert HalfLinksAreOffers(m);
    assert Lists(m, p, q) && !Lists(m, q, p);
  }

  /** One-sided links arise only by turning a producer away. */
  lemma ConnectKeeps(c: Casting, n: Net, p: PortId, q: PortId)
    requires Sound(c, n) && p in n && q in n
    ensures Sound(c, AfterConnect(c, n, p, q).1) && OnlyLinksDiffer(n, AfterConnect(c, n, p, q).1)
    ensures Mutual(n) ==> (Mutual(AfterConnect(c, n, p, q).1) <==> !TurnedAway(c, n, p, q))
  {
    if AfterConnect(c, n, p, q).0 == Agreed {
      AgreementKeeps(c, n, p, q);
      ConnectAgreesIff(c, n, p, q);
    } else {
      RefusalLeaves(c, n, p, q);
      if TurnedAway(c, n, p, q) {
        TurningAwayKeeps(c, n, p, q);
      }
    }
  }

  // ---------- Who is listed by the port it lists ----------

  /** Every port that lists `x` is listed by `x`. */
  ghost predicate Answers(n: Net, x: PortId) {
    forall a :: Lists(n, a, x) ==> Lists(n, x, a)
  }

  lemma DisconnectAllKeepsAnswers(n: Net, p: PortId, x: PortId)
    requires p in n && (!n[p].kind.Managed() ==> p !in n[p].peers) && Answers(n, x)
    ensures Answers(AfterDisconnectAll(n, p), x)
  {
    DisconnectAllLinks(n, p);
  }

  lemma DisconnectKeepsAnswers(c: Casting, n: Net, p: PortId, q: PortId, x: PortId)
    requires Sound(c, n) && p in n && q in n && Answers(n, x)
    ensures Answers(AfterDisconnect(n, p, q), x)
  {
    if n[p].kind.Slot() && Lists(n, p, q) {
      OnePeer(c, n, p, q);
    }
    DisconnectLinks(n, p, q);
  }

  lemma JoinedKeepsAnswers(n: Net, p: PortId, q: PortId, x: PortId)
    requires p in n && q in n && Answers(n, x)
    ensures Answers(Joined(n, p, q), x)
  {
    JoinedLinks(n, p, q);
  }

  /** No call of others takes that away from `x`; only turning a producer away itself does. */
  lemma ConnectKeepsAnswers(c: Casting, n: Net, p: PortId, q: PortId, x: PortId)
    requires Sound(c, n) && p in n && q in n && Answers(n, x)
    ensures Answers(AfterConnect(c, n, p, q).1, x) <==> !(q == x && TurnedAway(c, n, p, q))
  {
    ConnectAgreesIff(c, n, p, q);
    if AfterConnect(c, n, p, q).0 == Refused {
      RefusalLeaves(c, n, p, q);
      assert TurnedAway(c, n, p, q) ==> Lists(AddPeer(n, p, q), p, q) && !Lists(AddPeer(n, p, q), q, p);
      AddPeerLinks(n, p, q);
    } else if Lists(n, p, q) {
      LinkedAlready(c, n, p, q);
    } else if Lists(n, q, p) {
      OfferTakenUp(c, n, p, q);
      JoinedKeepsAnswers(n, p, q, x);
    } else {
      NewLink(c, n, p, q);
      if n[p].kind.Client? {
        DisconnectAllKeepsAnswers(n, p, x);
      } else if n[q].kind.Client? {
        DisconnectAllKeepsAnswers(n, q, x);
      }
      JoinedKeepsAnswers(Freed(n, p, q), p, q, x);
    }
  }

  lemma ForgettingUndoesJoining(n: Net, p: PortId, q: PortId)
    requires p in n && q in n && q !in n[p].peers + n[p].keys && p !in n[q].peers + n[q].keys
    ensures Forget(Forget(Joined(n, p, q), p, q), q, p) == n
  {
    var m := Forget(Forget(Joined(n, p, q), p, q), q, p);
    assert m[p].peers == n[p].peers && m[p].keys == n[p].keys;
    assert m[q].peers == n[q].peers && m[q].keys == n[q].keys;
    assert m[p] == n[p] && m[q] == n[q];
  }

  /** Disconnecting undoes connecting. */
  lemma DisconnectUndoesConnect(c: Casting, n: Net, p: PortId, q: PortId)
    requires Sound(c, n) && Mutual(n) && p in n && q in n && !Lists(n, p, q)
    requires !n[p].kind.Requester? && !n[p].kind.Client? && !n[q].kind.Requester? && !n[q].kind.Client?
    requires AfterConnect(c, n, p, q).0 == Agreed
    ensures AfterDisconnect(AfterConnect(c, n, p, q).1, p, q) == n
  {
    ConnectAgreesIff(c, n, p, q);
    NewLink(c, n, p, q);
    ForgettingUndoesJoining(n, p, q);
    assert Lists(Joined(n, p, q), p, q);
  }
}

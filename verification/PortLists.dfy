/** Lists of connects that are carried out one after the other: when all of them are accepted, and
    which links there are then.
 */
module PortLists {
  import opened Ports
  import opened PortNetwork
  import opened PortTheorems
  import opened PortRuns

  ghost predicate AgreesNow(c: Casting, n: Net, cmd: Command) {
    cmd.Connect? && Issuable(n, cmd) && AfterConnect(c, n, cmd.p, cmd.q).0 == Agreed
  }

  /** Every connect of the list is accepted when its turn comes. */
  ghost predicate AllAgree(c: Casting, n: Net, cmds: seq<Command>) {
    cmds != [] ==>
      var init := cmds[..|cmds| - 1];
      AllAgree(c, n, init) && AgreesNow(c, Run(c, n, init), cmds[|cmds| - 1])
  }

  lemma {:induction false} AllAgreeBefore(c: Casting, n: Net, cmds: seq<Command>, k: nat)
    requires k <= |cmds| && AllAgree(c, n, cmds)
    ensures AllAgree(c, n, cmds[..k])
  {
    if k == |cmds| {
      assert cmds[..k] == cmds;
    } else {
      assert cmds[..|cmds| - 1][..k] == cmds[..k];
      AllAgreeBefore(c, n, cmds[..|cmds| - 1], k);
    }
  }

  predicate Connects(n: Net, cmds: seq<Command>) {
    forall cmd <- cmds :: cmd.Connect? && Issuable(n, cmd)
  }

  /** The two ends of every connect of the list, both ways round. */
  ghost function Pairs(cmds: seq<Command>): set<(PortId, PortId)> {
    if cmds == [] then {} else
    var cmd := cmds[|cmds| - 1];
    Pairs(cmds[..|cmds| - 1]) + if cmd.Connect? then {(cmd.p, cmd.q), (cmd.q, cmd.p)} else {}
  }

  /** The links there were, and those of the list. */
  ghost function Wanted(n: Net, cmds: seq<Command>): set<(PortId, PortId)> {
    Links(n) + Pairs(cmds)
  }

  lemma WantedGrows(n: Net, cmds: seq<Command>)
    requires cmds != [] && cmds[|cmds| - 1].Connect?
    ensures var cmd := cmds[|cmds| - 1];
            Wanted(n, cmds) == Wanted(n, cmds[..|cmds| - 1]) + {(cmd.p, cmd.q), (cmd.q, cmd.p)}
  {
  }

  lemma InLinks(n: Net, a: PortId, b: PortId)
    ensures (a, b) in Links(n) <==> Lists(n, a, b)
  {
  }

  lemma LinkAfter(c: Casting, n: Net, p: PortId, q: PortId, a: PortId, b: PortId)
    requires Sound(c, n) && Mutual(n) && p in n && q in n && AfterConnect(c, n, p, q).0 == Agreed
    ensures (a, b) in Links(AfterConnect(c, n, p, q).1) <==>
            IsPair(p, q, a, b) || ((a, b) in Links(n) && !Touches(LeftHosts(n, p, q), a, b))
  {
    ConnectReach(c, n, p, q);
    InLinks(AfterConnect(c, n, p, q).1, a, b);
    InLinks(n, a, b);
  }

  /** One more accepted connect adds its link and nothing else; it removes nothing unless a client
      leaves a host. */
  lemma OneMoreLink(c: Casting, n: Net, p: PortId, q: PortId)
    requires Sound(c, n) && Mutual(n) && p in n && q in n && AfterConnect(c, n, p, q).0 == Agreed
    ensures var links := Links(AfterConnect(c, n, p, q).1);
            && {(p, q), (q, p)} <= links <= Links(n) + {(p, q), (q, p)}
            && (LeftHosts(n, p, q) == {} ==> links == Links(n) + {(p, q), (q, p)})
  {
    forall a: PortId, b: PortId
      ensures (a, b) in Links(AfterConnect(c, n, p, q).1) <==>
              IsPair(p, q, a, b) || ((a, b) in Links(n) && !Touches(LeftHosts(n, p, q), a, b))
    {
      LinkAfter(c, n, p, q, a, b);
    }
  }

  /** The ports stay as they are, but for their links. */
  lemma {:induction false} AgreedRunKeeps(c: Casting, n: Net, cmds: seq<Command>)
    requires Sound(c, n) && Mutual(n) && AllAgree(c, n, cmds)
    ensures var m := Run(c, n, cmds);
            Sound(c, m) && Mutual(m) && OnlyLinksDiffer(n, m) && Links(m) <= Wanted(n, cmds)
  {
    if cmds != [] {
      var m, cmd := Run(c, n, cmds[..|cmds| - 1]), cmds[|cmds| - 1];
      AgreedRunKeeps(c, n, cmds[..|cmds| - 1]);
      AgreementKeeps(c, m, cmd.p, cmd.q);
      OneMoreLink(c, m, cmd.p, cmd.q);
    }
  }

  // ---------- Which links there are in the end ----------

  /** Some client is linked with two hosts. */
  ghost predicate TwoHosts(n: Net, links: set<(PortId, PortId)>) {
    exists p, h, k :: p in n && n[p].kind.Client? && h != k && (p, h) in links && (p, k) in links
  }

  lemma ClientsHaveOneHost(c: Casting, n: Net)
    requires WellTyped(c, n)
    ensures !TwoHosts(n, Links(n))
  {
    forall p, h, k | p in n && n[p].kind.Client? && (p, h) in Links(n) && (p, k) in Links(n) ensures h == k {
      OnePeer(c, n, p, h);
    }
  }

  /** A client that leaves a host for another wants both. */
  lemma LeavingMeansTwoHosts(c: Casting, n: Net, p: PortId, q: PortId, wanted: set<(PortId, PortId)>)
    requires p in n && q in n && Mutual(n) && Links(n) <= wanted && {(p, q), (q, p)} <= wanted
    requires LeftHosts(n, p, q) != {}
    ensures TwoHosts(n, wanted)
  {
    var x, y := if n[p].kind.Client? && n[p].peers != {} then p else q, if n[p].kind.Client? && n[p].peers != {} then q else p;
    var h :| h in n[x].peers;
    assert (x, h) in Links(n) && (x, y) in wanted && h != y;
  }

  /** When all connects of a list were accepted, all its links and all older ones exist if and only
      if no client was to have two hosts. */
  lemma {:induction false} AllLinksIff(c: Casting, n: Net, cmds: seq<Command>)
    requires Sound(c, n) && Mutual(n) && AllAgree(c, n, cmds)
    ensures Links(Run(c, n, cmds)) == Wanted(n, cmds) <==> !TwoHosts(n, Wanted(n, cmds))
  {
    var m := Run(c, n, cmds);
    AgreedRunKeeps(c, n, cmds);
    if TwoHosts(n, Wanted(n, cmds)) {
      ClientsHaveOneHost(c, m);
    } else if cmds == [] {
      assert Wanted(n, cmds) == Links(n);
    } else {
      var init, cmd := cmds[..|cmds| - 1], cmds[|cmds| - 1];
      WantedGrows(n, cmds);
      FewerHosts(n, Wanted(n, init), Wanted(n, cmds));
      AllLinksIff(c, n, init);
      AgreedRunKeeps(c, n, init);
      SameHosts(n, Run(c, n, init), Wanted(n, cmds));
      if LeftHosts(Run(c, n, init), cmd.p, cmd.q) != {} {
        LeavingMeansTwoHosts(c, Run(c, n, init), cmd.p, cmd.q, Wanted(n, cmds));
      }
      OneMoreLink(c, Run(c, n, init), cmd.p, cmd.q);
    }
  }

  lemma FewerHosts(n: Net, some: set<(PortId, PortId)>, all: set<(PortId, PortId)>)
    requires some <= all && !TwoHosts(n, all)
    ensures !TwoHosts(n, some)
  {
  }

  lemma SameHosts(n: Net, m: Net, links: set<(PortId, PortId)>)
    requires OnlyLinksDiffer(n, m)
    ensures TwoHosts(n, links) <==> TwoHosts(m, links)
  {
  }

  // ---------- When all are accepted ----------

  /** Every port of the links accepts the other, and no port that takes one peer has two. */
  ghost predicate Fits(c: Casting, n: Net, links: set<(PortId, PortId)>) {
    && (forall l <- links :: l.0 in n && l.1 in n && TypesMatch(c, n, l.0, l.1))
    && (forall k <- links, l <- links | k.0 == l.0 ::
          n[k.0].kind.Requester? || n[k.0].kind == Consumer(Single) ==> k.1 == l.1)
  }

  lemma LinksFit(c: Casting, n: Net)
    requires WellTyped(c, n)
    ensures Fits(c, n, Links(n))
  {
    forall l | l in Links(n) ensures l.0 in n && l.1 in n && TypesMatch(c, n, l.0, l.1) {
      assert l.1 in n[l.0].peers && Accepts(c, n, l.0, l.1);
    }
    forall k, l | k in Links(n) && l in Links(n) && k.0 == l.0
                  && (n[k.0].kind.Requester? || n[k.0].kind == Consumer(Single)) ensures k.1 == l.1 {
      assert k.1 in n[k.0].peers && l.1 in n[k.0].peers;
    }
  }

  lemma SameFit(c: Casting, n: Net, m: Net, links: set<(PortId, PortId)>)
    requires OnlyLinksDiffer(n, m)
    ensures Fits(c, n, links) <==> Fits(c, m, links)
  {
    assert forall a, b | a in n && b in n :: TypesMatch(c, n, a, b) <==> TypesMatch(c, m, a, b);
  }

  /** A connect that fits among all that is wanted is accepted. */
  lemma FittingAgrees(c: Casting, n: Net, p: PortId, q: PortId, wanted: set<(PortId, PortId)>)
    requires Sound(c, n) && p in n && q in n && Links(n) <= wanted && {(p, q), (q, p)} <= wanted
    requires Fits(c, n, wanted)
    ensures AfterConnect(c, n, p, q).0 == Agreed
  {
    ConnectAgreesIff(c, n, p, q);
    forall b | b in n[p].peers && (n[p].kind.Requester? || n[p].kind == Consumer(Single)) ensures b == q {
      assert (p, b) in Links(n) && (p, b) in wanted && (p, q) in wanted;
    }
    forall a | a in n[q].peers && (n[q].kind.Requester? || n[q].kind == Consumer(Single)) ensures a == p {
      assert (q, a) in Links(n) && (q, a) in wanted && (q, p) in wanted;
    }
    assert (p, q) in wanted && (q, p) in wanted;
  }

  /** If no client is to have two hosts, all connects of a list are accepted if and only if the ports
      accept each other and no port that takes one peer is to have two. The order of the list, and
      which end each connect starts from, make no difference. */
  lemma {:induction false} AllAgreeIff(c: Casting, n: Net, cmds: seq<Command>)
    requires Sound(c, n) && Mutual(n) && Connects(n, cmds) && !TwoHosts(n, Wanted(n, cmds))
    ensures AllAgree(c, n, cmds) <==> Fits(c, n, Wanted(n, cmds))
  {
    if AllAgree(c, n, cmds) {
      AllLinksIff(c, n, cmds);
      AgreedRunKeeps(c, n, cmds);
      LinksFit(c, Run(c, n, cmds));
      SameFit(c, n, Run(c, n, cmds), Wanted(n, cmds));
    } else if Fits(c, n, Wanted(n, cmds)) && cmds != [] {
      var init, cmd := cmds[..|cmds| - 1], cmds[|cmds| - 1];
      assert cmd in cmds && forall x <- init :: x in cmds;
      WantedGrows(n, cmds);
      FewerHosts(n, Wanted(n, init), Wanted(n, cmds));
      AllAgreeIff(c, n, init);
      AllLinksIff(c, n, init);
      AgreedRunKeeps(c, n, init);
      SameFit(c, n, Run(c, n, init), Wanted(n, cmds));
      FittingAgrees(c, Run(c, n, init), cmd.p, cmd.q, Wanted(n, cmds));
    }
  }
}

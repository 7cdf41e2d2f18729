/** Whole runs: any sequence of connects, disconnects and sends, on any mix of port kinds. */
module PortRuns {
  import opened Ports
  import opened PortNetwork
  import opened PortTheorems

  datatype Command =
    | Connect(p: PortId, q: PortId)
    | DisconnectAll(p: PortId)
    | Disconnect(p: PortId, q: PortId)
    | Send(p: PortId, t: Item)
    | Deactivate(p: PortId)

  /** The ports exist, only producers send, and only consumers are deactivated. */
  predicate Issuable(n: Net, cmd: Command) {
    && cmd.p in n
    && (cmd.Connect? || cmd.Disconnect? ==> cmd.q in n)
    && (cmd.Send? ==> n[cmd.p].kind.Producer?)
    && (cmd.Deactivate? ==> n[cmd.p].kind.Consumer? || n[cmd.p].kind.MultiConsumer?)
  }

  function Next(c: Casting, n: Net, cmd: Command): Net {
    if !Issuable(n, cmd) then n else
    match cmd
    case Connect(p, q) => AfterConnect(c, n, p, q).1
    case DisconnectAll(p) => AfterDisconnectAll(n, p)
    case Disconnect(p, q) => AfterDisconnect(n, p, q)
    case Send(p, t) => AfterSend(n, p, t)
    case Deactivate(p) => AfterDeactivate(n, p)
  }

  /** A call between ports that exist is never left out. */
  lemma CallsTakeEffect(c: Casting, n: Net, p: PortId, q: PortId)
    requires p in n && q in n
    ensures Next(c, n, Connect(p, q)) == AfterConnect(c, n, p, q).1
    ensures Next(c, n, Disconnect(p, q)) == AfterDisconnect(n, p, q)
    ensures Next(c, n, DisconnectAll(p)) == AfterDisconnectAll(n, p)
  {
  }

  function Run(c: Casting, n: Net, cmds: seq<Command>): Net {
    if cmds == [] then n else Next(c, Run(c, n, cmds[..|cmds| - 1]), cmds[|cmds| - 1])
  }

  function Unconnected(kinds: map<PortId, Kind>): Net {
    map p | p in kinds :: Port(kinds[p], {}, {}, [], true)
  }

  /** The run as the ports carry it out; a refused connect does not end it. */
  method Execute(net: Network, cmds: seq<Command>)
    requires net.Valid()
    modifies net
    ensures net.Valid() && net.ports == Run(net.casting, old(net.ports), cmds)
  {
    for i := 0 to |cmds|
      invariant net.Valid() && net.ports == Run(net.casting, old(net.ports), cmds[..i])
    {
      assert cmds[..i + 1][..i] == cmds[..i];
      if Issuable(net.ports, cmds[i]) {
        match cmds[i]
        case Connect(p, q) => var _ := net.Connect(p, q);
        case DisconnectAll(p) => net.DisconnectAll(p);
        case Disconnect(p, q) => net.Disconnect(p, q);
        case Send(p, t) => net.Send(p, t);
        case Deactivate(p) => net.Deactivate(p);
      }
    }
    assert cmds[..|cmds|] == cmds;
  }

  // ---------- What holds after every command ----------

  lemma SendKeeps(c: Casting, n: Net, p: PortId, t: Item)
    requires Sound(c, n) && p in n && n[p].kind.Producer?
    ensures Sound(c, AfterSend(n, p, t)) && (Mutual(n) ==> Mutual(AfterSend(n, p, t)))
  {
    var m := AfterSend(n, p, t);
    forall x | x in n && n[x].kind.MultiConsumer? && Lists(n, p, x) ensures m[x].keys == n[x].keys {
      assert Lists(n, x, p);
    }
    assert forall a, b :: Lists(m, a, b) <==> Lists(n, a, b);
    assert forall x <- m :: m[x].kind == n[x].kind && m[x].peers == n[x].peers && m[x].keys == n[x].keys;
    assert forall x <- m :: forall y <- m[x].peers :: Accepts(c, n, x, y);
  }

  lemma DeactivateKeeps(c: Casting, n: Net, p: PortId)
    requires Sound(c, n) && p in n
    ensures Sound(c, AfterDeactivate(n, p)) && (Mutual(n) ==> Mutual(AfterDeactivate(n, p)))
  {
    var m := AfterDeactivate(n, p);
    assert forall a, b :: Lists(m, a, b) <==> Lists(n, a, b);
    assert forall x <- m :: m[x].kind == n[x].kind && m[x].peers == n[x].peers && m[x].keys == n[x].keys;
    assert forall x <- n :: forall y <- n[x].peers :: Accepts(c, n, x, y) && Accepts(c, m, x, y);
  }

  lemma NextKeeps(c: Casting, n: Net, cmd: Command)
    requires Sound(c, n)
    ensures Sound(c, Next(c, n, cmd))
    ensures Mutual(n) && !(cmd.Connect? && Issuable(n, cmd) && TurnedAway(c, n, cmd.p, cmd.q))
            ==> Mutual(Next(c, n, cmd))
    ensures !cmd.Send? && !cmd.Deactivate? ==> OnlyLinksDiffer(n, Next(c, n, cmd))
  {
    if Issuable(n, cmd) {
      match cmd
      case Connect(p, q) => ConnectKeeps(c, n, p, q);
      case DisconnectAll(p) => DisconnectAllKeeps(c, n, p);
      case Disconnect(p, q) => DisconnectKeeps(c, n, p, q);
      case Send(p, t) => SendKeeps(c, n, p, t);
      case Deactivate(p) => DeactivateKeeps(c, n, p);
    }
  }

  /** Whatever is called, in whatever order: links are typed, a port that takes one peer never has
      two, a link held by one end only is a producer's offer to a consumer that turned it away, and
      queue keys and slave keys are the connections. */
  lemma {:induction false} EveryRunIsSound(c: Casting, kinds: map<PortId, Kind>, cmds: seq<Command>)
    ensures Sound(c, Run(c, Unconnected(kinds), cmds)) && Orderly(c, Run(c, Unconnected(kinds), cmds))
  {
    if cmds != [] {
      EveryRunIsSound(c, kinds, cmds[..|cmds| - 1]);
      NextKeeps(c, Run(c, Unconnected(kinds), cmds[..|cmds| - 1]), cmds[|cmds| - 1]);
    }
    SoundIsOrderly(c, Run(c, Unconnected(kinds), cmds));
  }

  /** No connect of the run is a producer's that gets turned away. */
  ghost predicate NobodyTurnedAway(c: Casting, n: Net, cmds: seq<Command>) {
    forall i | 0 <= i < |cmds| && cmds[i].Connect? && Issuable(Run(c, n, cmds[..i]), cmds[i]) ::
      !TurnedAway(c, Run(c, n, cmds[..i]), cmds[i].p, cmds[i].q)
  }

  lemma NobodyTurnedAwayBefore(c: Casting, n: Net, cmds: seq<Command>)
    requires NobodyTurnedAway(c, n, cmds) && cmds != []
    ensures NobodyTurnedAway(c, n, cmds[..|cmds| - 1])
  {
    var init := cmds[..|cmds| - 1];
    assert forall i | 0 <= i < |init| :: init[..i] == cmds[..i];
  }

  lemma {:induction false} LinksStayMutual(c: Casting, n: Net, cmds: seq<Command>)
    requires Sound(c, n) && Mutual(n) && NobodyTurnedAway(c, n, cmds)
    ensures Sound(c, Run(c, n, cmds)) && Mutual(Run(c, n, cmds))
  {
    if cmds != [] {
      var init := cmds[..|cmds| - 1];
      NobodyTurnedAwayBefore(c, n, cmds);
      LinksStayMutual(c, n, init);
      NextKeeps(c, Run(c, n, init), cmds[|cmds| - 1]);
    }
  }

  // ---------- Delivery ----------

  lemma NextKeepsPorts(c: Casting, n: Net, cmd: Command, x: PortId)
    requires Sound(c, n) && x in n
    ensures var m := Next(c, n, cmd);
            && Sound(c, m) && m.Keys == n.Keys && m[x].kind == n[x].kind
            && (n[x].kind.Consumer? ==> m[x].active == (n[x].active && cmd != Deactivate(x)))
  {
    NextKeeps(c, n, cmd);
  }

  /** Ports stay what they are, and a consumer stays active until it is deactivated. */
  lemma {:induction false} RunKeepsPorts(c: Casting, n: Net, cmds: seq<Command>, x: PortId)
    requires Sound(c, n) && x in n
    ensures var m := Run(c, n, cmds);
            && Sound(c, m) && m.Keys == n.Keys && m[x].kind == n[x].kind
            && (n[x].kind.Consumer? ==> m[x].active == (n[x].active && Deactivate(x) !in cmds))
  {
    if cmds != [] {
      RunKeepsPorts(c, n, cmds[..|cmds| - 1], x);
      NextKeepsPorts(c, Run(c, n, cmds[..|cmds| - 1]), cmds[|cmds| - 1], x);
      assert cmds == cmds[..|cmds| - 1] + [cmds[|cmds| - 1]];
    }
  }

  predicate ProducerSends(n: Net, cmd: Command) {
    cmd.Send? && cmd.p in n && n[cmd.p].kind.Producer?
  }

  /** After the calls of `cmds` the port `x` still takes data: only a buffered consumer ever stops, and
      only when it was deactivated. */
  ghost predicate StillTakes(n: Net, cmds: seq<Command>, x: PortId)
    requires x in n
  {
    n[x].kind.Consumer? ==> n[x].active && Deactivate(x) !in cmds
  }

  /** What a run sends to `x` while `x` lists the sender and has not been deactivated, in order. */
  ghost function Due(c: Casting, n: Net, cmds: seq<Command>, x: PortId): seq<(PortId, Item)>
    requires x in n
  {
    if cmds == [] then [] else
    var init, cmd := cmds[..|cmds| - 1], cmds[|cmds| - 1];
    Due(c, n, init, x) +
    if ProducerSends(n, cmd) && Lists(Run(c, n, init), x, cmd.p) && StillTakes(n, init, x) then [(cmd.p, cmd.t)] else []
  }

  /** After `init`, a producer sends to `x` although `x` does not list it. */
  ghost predicate Stray(c: Casting, n: Net, init: seq<Command>, cmd: Command, x: PortId)
    requires x in n
  {
    && ProducerSends(n, cmd) && StillTakes(n, init, x)
    && Lists(Run(c, n, init), cmd.p, x) && !Lists(Run(c, n, init), x, cmd.p)
  }

  /** One call hands over what is sent by a producer that lists the port, and nothing else. */
  lemma NextDelivers(c: Casting, n: Net, cmd: Command, x: PortId)
    requires Sound(c, n) && x in n
    ensures x in Next(c, n, cmd)
    ensures Next(c, n, cmd)[x].inbox == n[x].inbox +
            if ProducerSends(n, cmd) && Lists(n, cmd.p, x) && n[x].TakesData() then [(cmd.p, cmd.t)] else []
  {
    NextKeeps(c, n, cmd);
  }

  /** A producer is listed only by ports it lists. */
  lemma ListedProducersList(c: Casting, n: Net, p: PortId, x: PortId)
    requires Sound(c, n) && Lists(n, x, p) && p in n && n[p].kind.Producer?
    ensures Lists(n, p, x)
  {
    assert Accepts(c, n, x, p);
  }

  /** No send of the run is a stray one. */
  ghost predicate NoStraySend(c: Casting, n: Net, cmds: seq<Command>, x: PortId)
    requires x in n
  {
    cmds != [] ==>
      var init := cmds[..|cmds| - 1];
      NoStraySend(c, n, init, x) && !Stray(c, n, init, cmds[|cmds| - 1], x)
  }

  /** The last call of a run. */
  lemma LastDelivers(c: Casting, n: Net, init: seq<Command>, cmd: Command, x: PortId)
    requires Sound(c, n) && x in n
    ensures x in Run(c, n, init) && x in Next(c, Run(c, n, init), cmd)
    ensures var share := if ProducerSends(n, cmd) && Lists(Run(c, n, init), x, cmd.p) && StillTakes(n, init, x)
                         then [(cmd.p, cmd.t)] else [];
            Next(c, Run(c, n, init), cmd)[x].inbox ==
            Run(c, n, init)[x].inbox + if Stray(c, n, init, cmd, x) then [(cmd.p, cmd.t)] else share
  {
    var m := Run(c, n, init);
    RunKeepsPorts(c, n, init, x);
    NextDelivers(c, m, cmd, x);
    if ProducerSends(n, cmd) {
      RunKeepsPorts(c, n, init, cmd.p);
      if Lists(m, x, cmd.p) {
        ListedProducersList(c, m, cmd.p, x);
      }
    } else if cmd.Send? && cmd.p in n {
      RunKeepsPorts(c, n, init, cmd.p);
    }
  }

  /** Exactly once, in send order, from the producers the port lists at that moment: so it is in a run
      if and only if no producer sends to the port that the port does not list. In any case nothing
      that is due goes missing. */
  lemma {:induction false} EveryRunDeliversIff(c: Casting, n: Net, cmds: seq<Command>, x: PortId)
    requires Sound(c, n) && x in n
    ensures Sound(c, Run(c, n, cmds)) && x in Run(c, n, cmds) && Run(c, n, cmds)[x].kind == n[x].kind
    ensures |Run(c, n, cmds)[x].inbox| >= |n[x].inbox + Due(c, n, cmds, x)|
    ensures Run(c, n, cmds)[x].inbox == n[x].inbox + Due(c, n, cmds, x) <==> NoStraySend(c, n, cmds, x)
  {
    RunKeepsPorts(c, n, cmds, x);
    if cmds != [] {
      var init, cmd := cmds[..|cmds| - 1], cmds[|cmds| - 1];
      EveryRunDeliversIff(c, n, init, x);
      LastDelivers(c, n, init, cmd, x);
      var share := if ProducerSends(n, cmd) && Lists(Run(c, n, init), x, cmd.p) && StillTakes(n, init, x)
                   then [(cmd.p, cmd.t)] else [];
      AppendCancels(n[x].inbox, Due(c, n, init, x), share, Run(c, n, init)[x].inbox);
    }
  }

  lemma AppendCancels<T>(a: seq<T>, b: seq<T>, tail: seq<T>, all: seq<T>)
    ensures a + (b + tail) == a + b + tail
    ensures all + tail == a + b + tail <==> all == a + b
  {
    if all + tail == a + b + tail {
      assert all == (all + tail)[..|all|] && a + b == (a + b + tail)[..|a + b|];
    }
  }

  /** `x` turns no producer away; what other ports do does not matter. */
  ghost predicate TurnsNobodyAway(c: Casting, n: Net, cmds: seq<Command>, x: PortId) {
    forall i | 0 <= i < |cmds| && cmds[i].Connect? && cmds[i].q == x && Issuable(Run(c, n, cmds[..i]), cmds[i]) ::
      !TurnedAway(c, Run(c, n, cmds[..i]), cmds[i].p, x)
  }

  lemma NextKeepsAnswers(c: Casting, n: Net, cmd: Command, x: PortId)
    requires Sound(c, n) && Answers(n, x)
    requires cmd.Connect? && cmd.q == x && Issuable(n, cmd) ==> !TurnedAway(c, n, cmd.p, x)
    ensures Answers(Next(c, n, cmd), x)
  {
    if Issuable(n, cmd) {
      match cmd
      case Connect(p, q) => ConnectKeepsAnswers(c, n, p, q, x);
      case DisconnectAll(p) => DisconnectAllKeepsAnswers(n, p, x);
      case Disconnect(p, q) => DisconnectKeepsAnswers(c, n, p, q, x);
      case Send(p, t) => assert forall a, b :: Lists(AfterSend(n, p, t), a, b) <==> Lists(n, a, b);
      case Deactivate(p) => assert forall a, b :: Lists(AfterDeactivate(n, p), a, b) <==> Lists(n, a, b);
    }
  }

  lemma TurnsNobodyAwayBefore(c: Casting, n: Net, cmds: seq<Command>, x: PortId)
    requires TurnsNobodyAway(c, n, cmds, x) && cmds != []
    ensures TurnsNobodyAway(c, n, cmds[..|cmds| - 1], x)
  {
    var init := cmds[..|cmds| - 1];
    assert forall i | 0 <= i < |init| :: init[..i] == cmds[..i] && init[i] == cmds[i];
  }

  lemma {:induction false} EveryRunAnswers(c: Casting, n: Net, cmds: seq<Command>, x: PortId)
    requires Sound(c, n) && Answers(n, x) && TurnsNobodyAway(c, n, cmds, x)
    ensures Sound(c, Run(c, n, cmds)) && Answers(Run(c, n, cmds), x)
  {
    if cmds != [] {
      var init := cmds[..|cmds| - 1];
      TurnsNobodyAwayBefore(c, n, cmds, x);
      EveryRunAnswers(c, n, init, x);
      NextKeeps(c, Run(c, n, init), cmds[|cmds| - 1]);
      NextKeepsAnswers(c, Run(c, n, init), cmds[|cmds| - 1], x);
    }
  }

  /** A port that takes more than one peer is listed only by ports it lists. */
  lemma OnlySingleConsumersTurnAway(c: Casting, n: Net, x: PortId)
    requires Sound(c, n) && x in n && n[x].kind != Consumer(Single)
    ensures Answers(n, x)
  {
    forall a | Lists(n, a, x) ensures Lists(n, x, a) {
      assert a in n;
    }
  }

  lemma {:induction false} NobodyStrays(c: Casting, n: Net, cmds: seq<Command>, x: PortId)
    requires Sound(c, n) && x in n
    requires n[x].kind == Consumer(Single) ==> Answers(n, x) && TurnsNobodyAway(c, n, cmds, x)
    ensures NoStraySend(c, n, cmds, x)
  {
    if cmds != [] {
      var init := cmds[..|cmds| - 1];
      RunKeepsPorts(c, n, init, x);
      if n[x].kind == Consumer(Single) {
        TurnsNobodyAwayBefore(c, n, cmds, x);
        EveryRunAnswers(c, n, init, x);
      } else {
        OnlySingleConsumersTurnAway(c, Run(c, n, init), x);
      }
      NobodyStrays(c, n, init, x);
    }
  }

  /** So a port gets exactly what is due unless it has itself turned a producer away, which only a
      consumer that takes one producer does. */
  lemma EveryRunDelivers(c: Casting, n: Net, cmds: seq<Command>, x: PortId)
    requires Sound(c, n) && x in n
    requires n[x].kind == Consumer(Single) ==> Answers(n, x) && TurnsNobodyAway(c, n, cmds, x)
    ensures x in Run(c, n, cmds) && Run(c, n, cmds)[x].inbox == n[x].inbox + Due(c, n, cmds, x)
  {
    NobodyStrays(c, n, cmds, x);
    EveryRunDeliversIff(c, n, cmds, x);
  }

  // ---------- Deactivated ports ----------

  /** After it was deactivated a buffered consumer takes nothing in, in any run. */
  lemma {:induction false} DeactivatedTakesNothing(c: Casting, n: Net, x: PortId, cmds: seq<Command>)
    requires Sound(c, n) && x in n && n[x].kind.Consumer?
    ensures var m := Run(c, AfterDeactivate(n, x), cmds);
            Sound(c, m) && x in m && m[x].inbox == n[x].inbox
  {
    DeactivateKeeps(c, n, x);
    if cmds != [] {
      var init := cmds[..|cmds| - 1];
      DeactivatedTakesNothing(c, n, x, init);
      RunKeepsPorts(c, AfterDeactivate(n, x), init, x);
      NextKeeps(c, Run(c, AfterDeactivate(n, x), init), cmds[|cmds| - 1]);
      NextDelivers(c, Run(c, AfterDeactivate(n, x), init), cmds[|cmds| - 1], x);
    }
  }

  /** A multi consumer goes on: what a run delivers to it does not depend on its being active. */
  lemma MultiConsumersGoOn(c: Casting, n: Net, x: PortId, cmds: seq<Command>)
    requires Sound(c, n) && x in n && n[x].kind.MultiConsumer?
    ensures var m := Run(c, AfterDeactivate(n, x), cmds);
            && Sound(c, AfterDeactivate(n, x)) && x in m
            && m[x].inbox == n[x].inbox + Due(c, AfterDeactivate(n, x), cmds, x)
  {
    DeactivateKeeps(c, n, x);
    EveryRunDelivers(c, AfterDeactivate(n, x), cmds, x);
  }

  // ---------- A producer that was turned away and delivers ----------

  lemma RunOneMore(c: Casting, n: Net, cmds: seq<Command>, cmd: Command, x: PortId)
    requires x in n
    ensures Run(c, n, cmds + [cmd]) == Next(c, Run(c, n, cmds), cmd)
    ensures Due(c, n, cmds + [cmd], x) == Due(c, n, cmds, x) +
            if ProducerSends(n, cmd) && Lists(Run(c, n, cmds), x, cmd.p) && StillTakes(n, cmds, x)
            then [(cmd.p, cmd.t)] else []
  {
    assert (cmds + [cmd])[..|cmds|] == cmds;
  }

  /** A producer that was just turned away is a stray sender. */
  lemma TurnedAwayIsStray(c: Casting, n: Net, cmds: seq<Command>, p: PortId, x: PortId, t: Item)
    requires Sound(c, n) && p in n && x in n && p in Run(c, n, cmds) && x in Run(c, n, cmds)
    requires TurnedAway(c, Run(c, n, cmds), p, x) && StillTakes(n, cmds, x)
    ensures Stray(c, n, cmds + [Connect(p, x)], Send(p, t), x)
    ensures var m := Run(c, n, cmds + [Connect(p, x)]); x in m && m[x].inbox == Run(c, n, cmds)[x].inbox
  {
    var m := Run(c, n, cmds);
    RunKeepsPorts(c, n, cmds, p);
    RunKeepsPorts(c, n, cmds, x);
    RefusalLeaves(c, m, p, x);
    AddPeerLinks(m, p, x);
    RunOneMore(c, n, cmds, Connect(p, x), x);
  }

  /** Whenever a port turns a producer away and that producer sends next, the port gets an item it
      should not get. */
  lemma TurnedAwayThenDelivers(c: Casting, n: Net, cmds: seq<Command>, p: PortId, x: PortId, t: Item)
    requires Sound(c, n) && p in n && x in n && p in Run(c, n, cmds) && x in Run(c, n, cmds)
    requires TurnedAway(c, Run(c, n, cmds), p, x) && StillTakes(n, cmds, x)
    ensures var all := cmds + [Connect(p, x)] + [Send(p, t)];
            && x in Run(c, n, all)
            && Run(c, n, all)[x].inbox == Run(c, n, cmds)[x].inbox + [(p, t)]
            && Due(c, n, all, x) == Due(c, n, cmds, x)
  {
    TurnedAwayIsStray(c, n, cmds, p, x, t);
    RunOneMore(c, n, cmds, Connect(p, x), x);
    RunOneMore(c, n, cmds + [Connect(p, x)], Send(p, t), x);
    LastDelivers(c, n, cmds + [Connect(p, x)], Send(p, t), x);
  }

  lemma FirstProducerIsTaken(c: Casting, kinds: map<PortId, Kind>)
    requires c == {(1, 0), (2, 0)} && kinds == map[0 := Consumer(Single), 1 := Producer, 2 := Producer]
    ensures var m := Next(c, Unconnected(kinds), Connect(2, 0));
            && m.Keys == {0, 1, 2} && m[0] == Port(Consumer(Single), {2}, {}, [], true)
            && m[1] == Port(Producer, {}, {}, [], true)
  {
    var n := Unconnected(kinds);
    assert n[2].peers + {0} == {0} && n[0].peers + {2} == {2};
    assert Decide(c, n, 2, 0) == Take && Decide(c, Taken(n, 2, 0), 0, 2) == Take;
  }

  /** Producer 1 is turned away by consumer 0, which has producer 2, and delivers to it. */
  lemma TurnedAwayButDelivering()
    ensures var kinds := map[0 := Consumer(Single), 1 := Producer, 2 := Producer];
            var c := {(1, 0), (2, 0)};
            var cmds := [] + [Connect(2, 0)] + [Connect(1, 0)] + [Send(1, 7)];
            && 0 in Run(c, Unconnected(kinds), cmds)
            && Run(c, Unconnected(kinds), cmds)[0].inbox == [(1, 7)]
            && Due(c, Unconnected(kinds), cmds, 0) == []
  {
    var c := {(1, 0), (2, 0)};
    var kinds := map[0 := Consumer(Single), 1 := Producer, 2 := Producer];
    FirstProducerIsTaken(c, kinds);
    EveryRunIsSound(c, kinds, []);
    assert Run(c, Unconnected(kinds), []) == Unconnected(kinds);
    RunOneMore(c, Unconnected(kinds), [], Connect(2, 0), 0);
    TurnedAwayThenDelivers(c, Unconnected(kinds), [] + [Connect(2, 0)], 1, 0, 7);
  }
}

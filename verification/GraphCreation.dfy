/** Creating a graph: the proxels from their configurations, and the connections of their ports, in
    the order of the list and up to the first failure. The ports of the proxels are those of a network.
 */
module GraphCreation {
  import opened Wrappers
  import opened ReplicaIds
  import opened ProxelConfigs
  import opened ProxelConnections
  import opened GraphConfig
  import opened Ports
  import opened PortNetwork
  import opened PortTheorems
  import opened PortRuns
  import opened PortLists

  // ---------- Creating proxels ----------

  /** What the factory for a configuration's type does with it. */
  datatype Making = Unknown | Throws | Makes

  function ProxelError(configs: seq<Config>, factory: Config -> Making, i: nat): Option<Error>
    requires i < |configs|
  {
    if exists j | 0 <= j < i :: configs[j].id == configs[i].id then Some(Duplicate)
    else match factory(configs[i])
      case Unknown => Some(NoFactory)
      case Throws => Some(FactoryFailed)
      case Makes => None
  }

  /** Each error has its own cause. */
  lemma ProxelErrorMeans(configs: seq<Config>, factory: Config -> Making, i: nat)
    requires i < |configs|
    ensures match ProxelError(configs, factory, i)
            case None => factory(configs[i]).Makes? && forall j | 0 <= j < i :: configs[j].id != configs[i].id
            case Some(Duplicate) => exists j | 0 <= j < i :: configs[j].id == configs[i].id
            case Some(NoFactory) => factory(configs[i]).Unknown?
            case Some(FactoryFailed) => factory(configs[i]).Throws?
            case Some(_) => false
  {
  }

  /** `createProxelsFromConfig`: the proxels by id, or the first error. */
  method CreateProxels(configs: seq<Config>, factory: Config -> Making) returns (r: Result<map<string, Config>>)
    ensures r.Ok? <==> && (forall i, j | 0 <= i < j < |configs| :: configs[i].id != configs[j].id)
                       && (forall config <- configs :: factory(config).Makes?)
    ensures r.Fail? ==> exists i | 0 <= i < |configs| ::
              ProxelError(configs, factory, i) == Some(r.error)
              && forall j | 0 <= j < i :: ProxelError(configs, factory, j) == None
    ensures r.Ok? ==> r.value.Keys == (set i | 0 <= i < |configs| :: configs[i].id)
                      && forall i | 0 <= i < |configs| :: r.value[configs[i].id] == configs[i]
  {
    var proxels: map<string, Config> := map[];
    for i := 0 to |configs|
      invariant forall a, b | 0 <= a < b < i :: configs[a].id != configs[b].id
      invariant forall a | 0 <= a < i :: factory(configs[a]).Makes?
      invariant forall a | 0 <= a < i :: ProxelError(configs, factory, a) == None
      invariant proxels.Keys == set a | 0 <= a < i :: configs[a].id
      invariant forall a | 0 <= a < i :: proxels[configs[a].id] == configs[a]
    {
      if configs[i].id in proxels {
        ghost var j :| 0 <= j < i && configs[j].id == configs[i].id;
        assert ProxelError(configs, factory, i) == Some(Duplicate);
        return Fail(Duplicate);
      }
      assert ProxelError(configs, factory, i) != Some(Duplicate);
      match factory(configs[i]) {
        case Unknown => assert configs[i] in configs; return Fail(NoFactory);
        case Throws => assert configs[i] in configs; return Fail(FactoryFailed);
        case Makes => proxels := proxels[configs[i].id := configs[i]];
      }
    }
    return Ok(proxels);
  }

  // ---------- Connecting them ----------

  /** The ports of the created proxels by proxel and name; a port may be a null pointer. */
  type PortTable = map<Endpoint, Option<PortId>>

  ghost predicate PortsExist(table: PortTable, n: Net) {
    forall e <- table :: table[e].Some? ==> table[e].value in n
  }

  function EndError(ids: set<string>, table: PortTable, e: Endpoint): Option<Error> {
    if e.proxel !in ids then Some(NoProxel)
    else if e !in table then Some(NoPort)
    else None
  }

  /** What goes wrong before the two ports are asked. */
  function LookupError(ids: set<string>, table: PortTable, c: Connection): Option<Error> {
    if Loops(c) then Some(Error.Loop)
    else if EndError(ids, table, c.lhs).Some? then EndError(ids, table, c.lhs)
    else if EndError(ids, table, c.rhs).Some? then EndError(ids, table, c.rhs)
    else if table[c.lhs].None? || table[c.rhs].None? then Some(NullPort)
    else None
  }

  predicate Wired(table: PortTable, c: Connection) {
    c.lhs in table && table[c.lhs].Some? && c.rhs in table && table[c.rhs].Some?
  }

  lemma LookupErrorIff(ids: set<string>, table: PortTable, c: Connection)
    ensures LookupError(ids, table, c) == None <==>
            !Loops(c) && c.lhs.proxel in ids && c.rhs.proxel in ids && Wired(table, c)
    ensures match LookupError(ids, table, c)
            case None => true
            case Some(Loop) => Loops(c)
            case Some(NoProxel) => c.lhs.proxel !in ids || c.rhs.proxel !in ids
            case Some(NoPort) => c.lhs !in table || c.rhs !in table
            case Some(NullPort) => c.lhs in table && c.rhs in table && (table[c.lhs] == None || table[c.rhs] == None)
            case Some(_) => false
  {
  }

  function Call(table: PortTable, c: Connection): Command
    requires Wired(table, c)
  {
    Connect(table[c.lhs].value, table[c.rhs].value)
  }

  /** The calls of `connect` that a list of connections comes down to. */
  function Calls(table: PortTable, connections: seq<Connection>): seq<Command>
    requires forall c <- connections :: Wired(table, c)
  {
    seq(|connections|, i requires 0 <= i < |connections| => Call(table, connections[i]))
  }

  lemma CallsOneMore(table: PortTable, connections: seq<Connection>, i: nat)
    requires i < |connections| && forall c <- connections[..i + 1] :: Wired(table, c)
    ensures forall c <- connections[..i] :: Wired(table, c)
    ensures Wired(table, connections[i])
    ensures Calls(table, connections[..i + 1])[..i] == Calls(table, connections[..i])
    ensures Calls(table, connections[..i + 1])[i] == Call(table, connections[i])
    ensures |Calls(table, connections[..i + 1])| == i + 1
  {
    assert connections[i] == connections[..i + 1][i];
    forall c | c in connections[..i] ensures Wired(table, c) {
      assert c in connections[..i + 1];
    }
    assert forall k | 0 <= k < i :: connections[..i + 1][k] == connections[..i][k];
  }

  lemma CallsUpTo(table: PortTable, connections: seq<Connection>, i: nat)
    requires i <= |connections| && forall c <- connections :: Wired(table, c)
    ensures forall c <- connections[..i] :: Wired(table, c)
    ensures Calls(table, connections)[..i] == Calls(table, connections[..i])
  {
    assert forall c <- connections[..i] :: c in connections;
    assert forall k | 0 <= k < i :: connections[k] == connections[..i][k];
  }

  /** The connections of the list can be looked up, and their ports have all agreed. */
  ghost predicate AllConnect(c: Casting, n: Net, ids: set<string>, table: PortTable, connections: seq<Connection>) {
    && (forall x <- connections :: Wired(table, x) && LookupError(ids, table, x) == None)
    && AllAgree(c, n, Calls(table, connections))
  }

  /** The i-th connection is the first one that fails, with `error`, and `m` is what is left behind. */
  ghost predicate FailsAt(c: Casting, n: Net, ids: set<string>, table: PortTable, connections: seq<Connection>,
                          i: nat, error: Error, m: Net)
    requires i < |connections|
  {
    && AllConnect(c, n, ids, table, connections[..i])
    && var before := Run(c, n, Calls(table, connections[..i]));
       match LookupError(ids, table, connections[i])
       case Some(e) => error == e && m == before
       case None =>
         && Wired(table, connections[i])
         && var call := Call(table, connections[i]);
         && call.p in before && call.q in before
         && error == ConnectRefused && AfterConnect(c, before, call.p, call.q) == (Refused, m)
  }

  lemma AllConnectUpTo(c: Casting, n: Net, ids: set<string>, table: PortTable, connections: seq<Connection>, i: nat)
    requires i <= |connections| && AllConnect(c, n, ids, table, connections)
    ensures AllConnect(c, n, ids, table, connections[..i])
  {
    CallsUpTo(table, connections, i);
    AllAgreeBefore(c, n, Calls(table, connections), i);
    assert forall x <- connections[..i] :: x in connections;
  }

  lemma FailureIsFinal(c: Casting, n: Net, ids: set<string>, table: PortTable, connections: seq<Connection>,
                       i: nat, error: Error, m: Net)
    requires i < |connections| && FailsAt(c, n, ids, table, connections, i, error, m)
    ensures !AllConnect(c, n, ids, table, connections)
  {
    if AllConnect(c, n, ids, table, connections) {
      AllConnectUpTo(c, n, ids, table, connections, i + 1);
      assert connections[i] in connections;
      CallsOneMore(table, connections, i);
    }
  }

  lemma OneMoreConnects(c: Casting, n: Net, ids: set<string>, table: PortTable, connections: seq<Connection>, i: nat)
    requires i < |connections| && AllConnect(c, n, ids, table, connections[..i])
    requires LookupError(ids, table, connections[i]) == None
    requires Wired(table, connections[i]) &&
             AgreesNow(c, Run(c, n, Calls(table, connections[..i])), Call(table, connections[i]))
    ensures AllConnect(c, n, ids, table, connections[..i + 1])
    ensures Run(c, n, Calls(table, connections[..i + 1])) ==
            Next(c, Run(c, n, Calls(table, connections[..i])), Call(table, connections[i]))
  {
    assert connections[..i + 1] == connections[..i] + [connections[i]];
    CallsOneMore(table, connections, i);
  }

  /** `Graph::connect`, with proxels and ports found by name. */
  method ConnectOne(net: Network, ids: set<string>, table: PortTable, c: Connection) returns (error: Option<Error>)
    requires Sound(net.casting, net.ports) && PortsExist(table, net.ports)
    modifies net
    ensures Sound(net.casting, net.ports) && PortsExist(table, net.ports)
    ensures match LookupError(ids, table, c)
            case Some(e) => error == Some(e) && net.ports == old(net.ports)
            case None =>
              && Wired(table, c)
              && var call := Call(table, c);
              && call.p in old(net.ports) && call.q in old(net.ports)
              && var (reply, m) := AfterConnect(net.casting, old(net.ports), call.p, call.q);
              net.ports == m && error == if reply == Agreed then None else Some(ConnectRefused)
  {
    error := LookupError(ids, table, c);
    if error == None {
      LookupErrorIff(ids, table, c);
      var p, q := table[c.lhs].value, table[c.rhs].value;
      ConnectKeeps(net.casting, net.ports, p, q);
      var reply := net.Connect(p, q);
      if reply == Refused {
        error := Some(ConnectRefused);
      }
    }
  }

  /** The loop over `Graph::connect`: connects the ports of the list, up to the first failure. */
  method ConnectAll(net: Network, ids: set<string>, table: PortTable, connections: seq<Connection>)
    returns (error: Option<Error>)
    requires Sound(net.casting, net.ports) && PortsExist(table, net.ports)
    modifies net
    ensures Sound(net.casting, net.ports)
    ensures error == None <==> AllConnect(net.casting, old(net.ports), ids, table, connections)
    ensures error == None ==> net.ports == Run(net.casting, old(net.ports), Calls(table, connections))
    ensures error.Some? ==> exists i: nat | i < |connections| ::
              FailsAt(net.casting, old(net.ports), ids, table, connections, i, error.value, net.ports)
  {
    ghost var n := net.ports;
    for i := 0 to |connections|
      invariant Sound(net.casting, net.ports) && PortsExist(table, net.ports)
      invariant AllConnect(net.casting, n, ids, table, connections[..i])
      invariant net.ports == Run(net.casting, n, Calls(table, connections[..i]))
    {
      error := ConnectOne(net, ids, table, connections[i]);
      if error.Some? {
        assert FailsAt(net.casting, n, ids, table, connections, i, error.value, net.ports);
        FailureIsFinal(net.casting, n, ids, table, connections, i, error.value, net.ports);
        return;
      }
      OneMoreConnects(net.casting, n, ids, table, connections, i);
    }
    assert connections[..|connections|] == connections;
    return None;
  }

  lemma UnknownProxel(c: Casting, n: Net, ids: set<string>, table: PortTable, connections: seq<Connection>, i: nat, m: Net)
    requires i < |connections| && FailsAt(c, n, ids, table, connections, i, NoProxel, m)
    ensures connections[i].lhs.proxel !in ids || connections[i].rhs.proxel !in ids
  {
    LookupErrorIff(ids, table, connections[i]);
  }

  // ---------- Building the graph ----------

  ghost predicate Buildable(configs: seq<Config>, connections: seq<Connection>, factory: Config -> Making,
                            table: PortTable, c: Casting, n: Net) {
    && DistinctIds(configs)
    && (forall config <- configs :: factory(config).Makes?)
    && AllConnect(c, n, ConfigIds(configs), table, connections)
  }

  /** `flow::createGraph`: the proxels by id, with their ports connected. */
  method BuildGraph(net: Network, configs: seq<Config>, connections: seq<Connection>, factory: Config -> Making,
                    table: PortTable) returns (r: Result<map<string, Config>>)
    requires Sound(net.casting, net.ports) && PortsExist(table, net.ports)
    modifies net
    ensures Sound(net.casting, net.ports)
    ensures r.Ok? <==> Buildable(configs, connections, factory, table, net.casting, old(net.ports))
    ensures r.Ok? ==> r.value.Keys == ConfigIds(configs) && forall config <- configs :: r.value[config.id] == config
    ensures r.Ok? ==> net.ports == Run(net.casting, old(net.ports), Calls(table, connections))
    ensures r == Fail(Duplicate) ==> !DistinctIds(configs)
    ensures r == Fail(NoProxel) ==>
              exists x <- connections :: x.lhs.proxel !in ConfigIds(configs) || x.rhs.proxel !in ConfigIds(configs)
  {
    r := CreateProxels(configs, factory);
    if r.Ok? {
      var error := ConnectAll(net, r.value.Keys, table, connections);
      if error.Some? {
        ghost var i: nat :| i < |connections| &&
          FailsAt(net.casting, old(net.ports), r.value.Keys, table, connections, i, error.value, net.ports);
        if error == Some(NoProxel) {
          UnknownProxel(net.casting, old(net.ports), r.value.Keys, table, connections, i, net.ports);
          assert connections[i] in connections;
        }
        FailsWithItsError(net.casting, old(net.ports), r.value.Keys, table, connections, i, error.value, net.ports);
        return Fail(error.value);
      }
    }
  }

  lemma FailsWithItsError(c: Casting, n: Net, ids: set<string>, table: PortTable, connections: seq<Connection>,
                          i: nat, error: Error, m: Net)
    requires i < |connections| && FailsAt(c, n, ids, table, connections, i, error, m)
    ensures error in {Error.Loop, NoProxel, NoPort, NullPort, ConnectRefused}
  {
  }

  // ---------- The whole expansion ----------

  /** The configurations and connections that the sections and specifications stand for. */
  method ReadGraph(sections: seq<seq<Entry>>, nodes: seq<Node>) returns (r: Result<(seq<Config>, seq<Connection>)>)
    requires forall n <- nodes :: HasPorts(n, AllNames(Flat(sections), true))
    ensures r.Ok? <==> && (forall e <- Flat(sections) :: Readable(e))
                       && (forall n <- nodes :: Problem(AllReplicas(sections), AllNames(Flat(sections), true), n) == None)
    ensures r.Ok? ==> Configs(Flat(sections)) == Ok(r.value.0)
                      && Connections(AllReplicas(sections), AllNames(Flat(sections), true), nodes) == Ok(r.value.1)
    ensures r.Fail? ==> r.error in {ListSize, NoType, BadFormat, Ambiguous, SizeMismatch}
  {
    ConfigsOkIff(Flat(sections));
    var configs := GetAllProxelConfigs(sections);
    if configs.Fail? {
      return Fail(configs.error);
    }
    var names := GetAllNames(sections, true);
    var replicas := GetAllReplicas(sections);
    forall k | k in replicas ensures replicas[k] >= 1 {
      InAllReplicas(sections, k);
    }
    ExpansionFailsIff(replicas, names, nodes);
    var connections := GetConnections(replicas, names, nodes);
    if connections.Fail? {
      ProblemsOnly(replicas, names, nodes);
      return Fail(connections.error);
    }
    return Ok((configs.value, connections.value));
  }

  lemma {:induction false} ProblemsOnly(m: ReplicaMap, names: seq<string>, nodes: seq<Node>)
    requires forall n <- nodes :: HasPorts(n, names)
    ensures Connections(m, names, nodes).Fail? ==>
              Connections(m, names, nodes).error in {BadFormat, Ambiguous, SizeMismatch}
  {
    if nodes != [] {
      ProblemsOnly(m, names, nodes[..|nodes| - 1]);
    }
  }

  ghost predicate AllKnown(sections: seq<seq<Entry>>, nodes: seq<Node>) {
    forall n <- nodes | Usable(n, AllNames(Flat(sections), true)) ::
      EndKnown(sections, n.lhs) && EndKnown(sections, n.rhs) && !EndsMeet(AllReplicas(sections), n)
  }

  /** All connections join two different ids if and only if the ends of all specifications are known
      and do not meet. */
  lemma ConnectionsJoinIdsIff(sections: seq<seq<Entry>>, nodes: seq<Node>)
    requires forall n <- nodes :: HasPorts(n, AllNames(Flat(sections), true))
    requires Connections(AllReplicas(sections), AllNames(Flat(sections), true), nodes).Ok?
    ensures (forall c <- Connections(AllReplicas(sections), AllNames(Flat(sections), true), nodes).value ::
               EndsAreIds(sections, c) && !Loops(c)) <==> AllKnown(sections, nodes)
  {
    var m, names := AllReplicas(sections), AllNames(Flat(sections), true);
    ExpansionFailsIff(m, names, nodes);
    forall n | n in nodes
      ensures Problem(m, names, n) == None
      ensures forall c <- Contribution(m, names, n) :: c in Connections(m, names, nodes).value
      ensures (forall c <- Contribution(m, names, n) :: EndsAreIds(sections, c) && !Loops(c)) <==>
              (Usable(n, names) ==> EndKnown(sections, n.lhs) && EndKnown(sections, n.rhs) && !EndsMeet(m, n))
    {
      ContributionsAreIn(m, names, nodes, n);
      ContributionEndsIff(sections, names, n);
      ContributionLoopsIff(m, names, n);
    }
  }

  /** When the whole expansion succeeds, in terms of the file, the factories and the ports. */
  ghost predicate Creatable(sections: seq<seq<Entry>>, nodes: seq<Node>, factory: Config -> Making,
                            table: PortTable, c: Casting, n: Net)
    requires forall n <- nodes :: HasPorts(n, AllNames(Flat(sections), true))
  {
    var configs := Configs(Flat(sections));
    var connections := Connections(AllReplicas(sections), AllNames(Flat(sections), true), nodes);
    && (forall e <- Flat(sections) :: Readable(e))
    && (forall n <- nodes :: Problem(AllReplicas(sections), AllNames(Flat(sections), true), n) == None)
    && NoTwins(Flat(sections)) && NoIdDeclared(Flat(sections)) && AllKnown(sections, nodes)
    && configs.Ok? && (forall config <- configs.value :: factory(config).Makes?)
    && connections.Ok? && (forall x <- connections.value :: Wired(table, x))
    && AllAgree(c, n, Calls(table, connections.value))
  }

  lemma CreatableIff(sections: seq<seq<Entry>>, nodes: seq<Node>, factory: Config -> Making, table: PortTable,
                     c: Casting, n: Net, configs: seq<Config>, connections: seq<Connection>)
    requires forall n <- nodes :: HasPorts(n, AllNames(Flat(sections), true))
    requires Configs(Flat(sections)) == Ok(configs)
    requires Connections(AllReplicas(sections), AllNames(Flat(sections), true), nodes) == Ok(connections)
    ensures Creatable(sections, nodes, factory, table, c, n) <==>
            Buildable(configs, connections, factory, table, c, n)
  {
    ConfigsOkIff(Flat(sections));
    ExpansionFailsIff(AllReplicas(sections), AllNames(Flat(sections), true), nodes);
    ConfigsHaveIds(Flat(sections));
    ConnectionsJoinIdsIff(sections, nodes);
    forall x | x in connections
      ensures Wired(table, x) && LookupError(ConfigIds(configs), table, x) == None <==>
              EndsAreIds(sections, x) && !Loops(x) && Wired(table, x)
    {
      LookupErrorIff(ConfigIds(configs), table, x);
    }
  }

  /** `createGraph` on sections and connections that are already read in. */
  method CreateGraph(net: Network, sections: seq<seq<Entry>>, nodes: seq<Node>, factory: Config -> Making,
                     table: PortTable) returns (r: Result<(map<string, Config>, seq<Connection>)>)
    requires forall n <- nodes :: HasPorts(n, AllNames(Flat(sections), true))
    requires Sound(net.casting, net.ports) && PortsExist(table, net.ports)
    modifies net
    ensures Sound(net.casting, net.ports)
    ensures r.Ok? <==> Creatable(sections, nodes, factory, table, net.casting, old(net.ports))
    ensures r.Ok? ==>
              && Configs(Flat(sections)).Ok?
              && r.value.0.Keys == ConfigIds(Configs(Flat(sections)).value)
              && (forall config <- Configs(Flat(sections)).value :: r.value.0[config.id] == config)
              && Connections(AllReplicas(sections), AllNames(Flat(sections), true), nodes) == Ok(r.value.1)
    ensures r.Ok? ==> (forall x <- r.value.1 :: Wired(table, x))
                      && net.ports == Run(net.casting, old(net.ports), Calls(table, r.value.1))
    ensures NoTwins(Flat(sections)) && NoIdDeclared(Flat(sections)) ==> r != Fail(Duplicate)
    ensures DistinctNames(Flat(sections)) && NoGeneratedName(Flat(sections)) ==> r != Fail(NoProxel)
  {
    var graph := ReadGraph(sections, nodes);
    if graph.Fail? {
      return Fail(graph.error);
    }
    var (configs, connections) := graph.value;
    CreatableIff(sections, nodes, factory, table, net.casting, net.ports, configs, connections);
    ConfigsHaveIds(Flat(sections));
    if DistinctNames(Flat(sections)) && NoGeneratedName(Flat(sections)) {
      ConnectionsMeetConfigs(sections, nodes);
    }
    var proxels := BuildGraph(net, configs, connections, factory, table);
    if proxels.Fail? {
      return Fail(proxels.error);
    }
    return Ok((proxels.value, connections));
  }

  /** In a new graph, whose ports have no links yet, and where no client is connected to two hosts: the
      ports accept all connections if and only if they accept each other and none that takes one peer
      has two; and then the links are exactly those of the list. */
  lemma NewGraphIsConnected(c: Casting, kinds: map<PortId, Kind>, table: PortTable, connections: seq<Connection>)
    requires PortsExist(table, Unconnected(kinds)) && forall x <- connections :: Wired(table, x)
    requires !TwoHosts(Unconnected(kinds), Pairs(Calls(table, connections)))
    ensures var n, calls := Unconnected(kinds), Calls(table, connections);
            && (AllAgree(c, n, calls) <==> Fits(c, n, Pairs(calls)))
            && (AllAgree(c, n, calls) ==> Links(Run(c, n, calls)) == Pairs(calls))
  {
    var n, calls := Unconnected(kinds), Calls(table, connections);
    EveryRunIsSound(c, kinds, []);
    assert Run(c, n, []) == n && Links(n) == {} && Wanted(n, calls) == Pairs(calls);
    forall i | 0 <= i < |calls| ensures calls[i].Connect? && Issuable(n, calls[i]) {
      assert connections[i] in connections;
    }
    AllAgreeIff(c, n, calls);
    if AllAgree(c, n, calls) {
      AllLinksIff(c, n, calls);
    }
  }
}

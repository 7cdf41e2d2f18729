/** From connection specifications to point-to-point connections, and why every endpoint is the id
    of exactly one proxel configuration although the two are computed by separate traversals.
 */
module ProxelConnections {
  import opened Wrappers
  import opened ReplicaIds
  import opened ProxelConfigs

  datatype PortSpec = PortSpec(proxel: string, ports: seq<string>)
  datatype Node = Malformed | Pair(lhs: PortSpec, rhs: PortSpec)
  datatype Endpoint = Endpoint(proxel: string, port: string)
  datatype Connection = Connection(lhs: Endpoint, rhs: Endpoint)

  type ReplicaMap = map<string, nat>

  function ReplicasOf(m: ReplicaMap, name: string): nat {
    if name in m then m[name] else 1
  }

  // ---------- One side of a connection ----------

  function Width(s: PortSpec, replicas: nat): nat {
    if replicas > 1 then replicas else |s.ports|
  }

  predicate ListOnReplicas(s: PortSpec, replicas: nat) {
    replicas > 1 && |s.ports| > 1
  }

  /** The i-th endpoint: a replica's port, or a proxel's i-th port. */
  function EndpointAt(s: PortSpec, replicas: nat, i: nat): Endpoint
    requires |s.ports| >= 1 && i < Width(s, replicas)
  {
    if replicas > 1 then Endpoint(ReplicaId(s.proxel, i), s.ports[0]) else Endpoint(s.proxel, s.ports[i])
  }

  method ExpandSpecifier(s: PortSpec, replicas: nat) returns (r: Result<seq<Endpoint>>)
    requires |s.ports| >= 1
    ensures r.Fail? <==> ListOnReplicas(s, replicas)
    ensures r.Fail? ==> r.error == Ambiguous
    ensures r.Ok? ==> |r.value| == Width(s, replicas)
                      && forall i | 0 <= i < |r.value| :: r.value[i] == EndpointAt(s, replicas, i)
  {
    if replicas > 1 && |s.ports| > 1 {
      return Fail(Ambiguous);
    }
    var result: seq<Endpoint> := [];
    if replicas > 1 {
      for idx := 0 to replicas
        invariant |result| == idx && forall i | 0 <= i < idx :: result[i] == EndpointAt(s, replicas, i)
      {
        result := result + [Endpoint(ReplicaId(s.proxel, idx), s.ports[0])];
      }
    } else if |s.ports| > 1 {
      for p := 0 to |s.ports|
        invariant |result| == p && forall i | 0 <= i < p :: result[i] == EndpointAt(s, replicas, i)
      {
        result := result + [Endpoint(s.proxel, s.ports[p])];
      }
    } else {
      result := [Endpoint(s.proxel, s.ports[0])];
    }
    return Ok(result);
  }

  // ---------- One specification: zip, or broadcast a single end ----------

  function Max(a: nat, b: nat): nat {
    if a < b then b else a
  }

  function PairAt(m: ReplicaMap, n: Node, i: nat): Connection
    requires n.Pair? && |n.lhs.ports| >= 1 && |n.rhs.ports| >= 1
    requires var l, r := Width(n.lhs, ReplicasOf(m, n.lhs.proxel)), Width(n.rhs, ReplicasOf(m, n.rhs.proxel));
             (l == r || l == 1 || r == 1) && i < Max(l, r)
  {
    var lr, rr := ReplicasOf(m, n.lhs.proxel), ReplicasOf(m, n.rhs.proxel);
    Connection(EndpointAt(n.lhs, lr, if Width(n.lhs, lr) == 1 then 0 else i),
               EndpointAt(n.rhs, rr, if Width(n.rhs, rr) == 1 then 0 else i))
  }

  predicate Usable(n: Node, names: seq<string>) {
    n.Pair? && n.lhs.proxel in names && n.rhs.proxel in names
  }

  /** A specification whose ends are both enabled names at least one port at each. */
  predicate HasPorts(n: Node, names: seq<string>) {
    Usable(n, names) ==> |n.lhs.ports| >= 1 && |n.rhs.ports| >= 1
  }

  function Problem(m: ReplicaMap, names: seq<string>, n: Node): Option<Error> {
    if n.Malformed? then Some(BadFormat)
    else if !Usable(n, names) then None
    else
      var lr, rr := ReplicasOf(m, n.lhs.proxel), ReplicasOf(m, n.rhs.proxel);
      var l, r := Width(n.lhs, lr), Width(n.rhs, rr);
      if ListOnReplicas(n.lhs, lr) || ListOnReplicas(n.rhs, rr) then Some(Ambiguous)
      else if l != r && l != 1 && r != 1 then Some(SizeMismatch)
      else None
  }

  function Contribution(m: ReplicaMap, names: seq<string>, n: Node): seq<Connection>
    requires HasPorts(n, names) && Problem(m, names, n) == None
  {
    if !Usable(n, names) then [] else
    var l, r := Width(n.lhs, ReplicasOf(m, n.lhs.proxel)), Width(n.rhs, ReplicasOf(m, n.rhs.proxel));
    seq(Max(l, r), i requires 0 <= i < Max(l, r) => PairAt(m, n, i))
  }

  /** The size of one end: its replicas, or else its ports. */
  function EndSize(m: ReplicaMap, s: PortSpec): nat {
    if s.proxel in m && m[s.proxel] > 1 then m[s.proxel] else |s.ports|
  }

  /** A specification between two enabled names can be expanded if and only if no port list is used on a
      replicated proxel and its ends are of equal size or one of them is single; any other fails only
      if it is malformed. */
  lemma ExpandsIff(m: ReplicaMap, names: seq<string>, n: Node)
    ensures Problem(m, names, n) == None <==>
            && n.Pair?
            && (n.lhs.proxel in names && n.rhs.proxel in names ==>
                  && (n.lhs.proxel in m && m[n.lhs.proxel] > 1 ==> |n.lhs.ports| <= 1)
                  && (n.rhs.proxel in m && m[n.rhs.proxel] > 1 ==> |n.rhs.ports| <= 1)
                  && (EndSize(m, n.lhs) == EndSize(m, n.rhs) || EndSize(m, n.lhs) == 1 || EndSize(m, n.rhs) == 1))
    ensures Problem(m, names, n) == Some(BadFormat) <==> n.Malformed?
    ensures Problem(m, names, n) == Some(Ambiguous) ==>
              || (n.lhs.proxel in m && m[n.lhs.proxel] > 1 && |n.lhs.ports| > 1)
              || (n.rhs.proxel in m && m[n.rhs.proxel] > 1 && |n.rhs.ports| > 1)
    ensures Problem(m, names, n) == Some(SizeMismatch) ==> EndSize(m, n.lhs) != EndSize(m, n.rhs)
  {
  }

  /** The i-th connection joins the i-th replica or port of each end, or its only one. */
  lemma ZipOrBroadcast(m: ReplicaMap, names: seq<string>, n: Node)
    requires HasPorts(n, names) && Problem(m, names, n) == None
    ensures var all := Contribution(m, names, n);
            if n.lhs.proxel in names && n.rhs.proxel in names then
              var l, r := EndSize(m, n.lhs), EndSize(m, n.rhs);
              && |all| == (if l < r then r else l)
              && forall i | 0 <= i < |all| ::
                   && JoinsAt(m, n.lhs, all[i].lhs, if l == 1 then 0 else i)
                   && JoinsAt(m, n.rhs, all[i].rhs, if r == 1 then 0 else i)
            else all == []
  {
  }

  /** `e` is the k-th replica of a replicated proxel at its only port, or another proxel at its k-th port. */
  predicate JoinsAt(m: ReplicaMap, s: PortSpec, e: Endpoint, k: nat) {
    if s.proxel in m && m[s.proxel] > 1 then
      |s.ports| == 1 && k < m[s.proxel] && e == Endpoint(ReplicaId(s.proxel, k), s.ports[0])
    else
      k < |s.ports| && e == Endpoint(s.proxel, s.ports[k])
  }

  /** `vector::resize` with a fill value. */
  method Fill(list: seq<Endpoint>, size: nat) returns (filled: seq<Endpoint>)
    requires 1 <= |list| <= size
    ensures |filled| == size
    ensures forall i | 0 <= i < size :: filled[i] == if i < |list| then list[i] else list[0]
  {
    filled := list;
    while |filled| < size
      invariant |list| <= |filled| <= size
      invariant forall i | 0 <= i < |filled| :: filled[i] == if i < |list| then list[i] else list[0]
    {
      filled := filled + [list[0]];
    }
  }

  method ExpandNode(m: ReplicaMap, names: seq<string>, n: Node) returns (r: Result<seq<Connection>>)
    requires HasPorts(n, names)
    requires forall k <- m :: m[k] >= 1
    ensures match Problem(m, names, n)
            case Some(e) => r == Fail(e)
            case None => r == Ok(Contribution(m, names, n))
  {
    if n.Malformed? {
      return Fail(BadFormat);
    }
    if n.lhs.proxel !in names || n.rhs.proxel !in names {
      return Ok([]);
    }
    var lhs := ExpandSpecifier(n.lhs, ReplicasOf(m, n.lhs.proxel));
    if lhs.Fail? {
      return Fail(lhs.error);
    }
    var rhs := ExpandSpecifier(n.rhs, ReplicasOf(m, n.rhs.proxel));
    if rhs.Fail? {
      return Fail(rhs.error);
    }
    var l, r' := lhs.value, rhs.value;
    if |l| != |r'| && |l| != 1 && |r'| != 1 {
      return Fail(SizeMismatch);
    }
    var size := Max(|l|, |r'|);
    if |l| != size {
      l := Fill(l, size);
    }
    if |r'| != size {
      r' := Fill(r', size);
    }
    var connections: seq<Connection> := [];
    for i := 0 to |l|
      invariant |connections| == i
      invariant forall j | 0 <= j < i :: connections[j] == Connection(l[j], r'[j])
    {
      connections := connections + [Connection(l[i], r'[i])];
    }
    assert connections == Contribution(m, names, n);
    return Ok(connections);
  }

  // ---------- All specifications ----------

  /** The first problem, or the contributions one after the other. */
  function Connections(m: ReplicaMap, names: seq<string>, nodes: seq<Node>): Result<seq<Connection>>
    requires forall n <- nodes :: HasPorts(n, names)
  {
    if nodes == [] then Ok([]) else
    var last := nodes[|nodes| - 1];
    match Connections(m, names, nodes[..|nodes| - 1])
    case Fail(e) => Fail(e)
    case Ok(connections) =>
      match Problem(m, names, last)
      case Some(e) => Fail(e)
      case None => Ok(connections + Contribution(m, names, last))
  }

  lemma FailureStays(m: ReplicaMap, names: seq<string>, nodes: seq<Node>, i: nat)
    requires i <= |nodes| && forall n <- nodes :: HasPorts(n, names)
    requires Connections(m, names, nodes[..i]).Fail?
    ensures Connections(m, names, nodes) == Connections(m, names, nodes[..i])
    decreases |nodes|
  {
    if i == |nodes| {
      assert nodes[..i] == nodes;
    } else {
      assert nodes[..|nodes| - 1][..i] == nodes[..i];
      FailureStays(m, names, nodes[..|nodes| - 1], i);
    }
  }

  method GetConnections(m: ReplicaMap, names: seq<string>, nodes: seq<Node>) returns (r: Result<seq<Connection>>)
    requires forall n <- nodes :: HasPorts(n, names)
    requires forall k <- m :: m[k] >= 1
    ensures r == Connections(m, names, nodes)
  {
    var connections := [];
    for i := 0 to |nodes|
      invariant Connections(m, names, nodes[..i]) == Ok(connections)
    {
      assert nodes[..i + 1][..i] == nodes[..i];
      var more := ExpandNode(m, names, nodes[i]);
      if more.Fail? {
        FailureStays(m, names, nodes, i + 1);
        return more;
      }
      connections := connections + more.value;
    }
    assert nodes[..|nodes|] == nodes;
    return Ok(connections);
  }

  /** The expansion fails exactly when some specification is malformed, uses a port list on a
      replicated proxel, or has two ends of different sizes of which neither is one; otherwise its
      result is made up of the contributions. */
  lemma {:induction false} ExpansionFailsIff(m: ReplicaMap, names: seq<string>, nodes: seq<Node>)
    requires forall n <- nodes :: HasPorts(n, names)
    ensures Connections(m, names, nodes).Fail? <==> exists n <- nodes :: Problem(m, names, n).Some?
    ensures Connections(m, names, nodes).Ok? ==>
              forall c <- Connections(m, names, nodes).value ::
                exists n <- nodes :: Problem(m, names, n) == None && c in Contribution(m, names, n)
  {
    if nodes != [] {
      var init, last := nodes[..|nodes| - 1], nodes[|nodes| - 1];
      ExpansionFailsIff(m, names, init);
      assert forall n :: n in nodes <==> n in init || n == last;
    }
  }

  /** One result after the other, or the first failure. */
  function Then(a: Result<seq<Connection>>, b: Result<seq<Connection>>): Result<seq<Connection>> {
    if a.Fail? then a else if b.Fail? then b else Ok(a.value + b.value)
  }

  lemma ThenThen(a: Result<seq<Connection>>, b: Result<seq<Connection>>, c: Result<seq<Connection>>)
    ensures Then(Then(a, b), c) == Then(a, Then(b, c))
  {
    if a.Ok? && b.Ok? && c.Ok? {
      assert a.value + b.value + c.value == a.value + (b.value + c.value);
    }
  }

  function Expanded(m: ReplicaMap, names: seq<string>, n: Node): Result<seq<Connection>>
    requires HasPorts(n, names)
  {
    match Problem(m, names, n)
    case Some(e) => Fail(e)
    case None => Ok(Contribution(m, names, n))
  }

  lemma LastComesLast(m: ReplicaMap, names: seq<string>, init: seq<Node>, last: Node)
    requires forall n <- init + [last] :: HasPorts(n, names)
    ensures (forall n <- init :: n in init + [last]) && last in init + [last]
    ensures Connections(m, names, init + [last]) == Then(Connections(m, names, init), Expanded(m, names, last))
  {
    var all := init + [last];
    assert all[..|all| - 1] == init && all[|all| - 1] == last;
    assert forall n <- init :: n in all;
    assert last in all;
  }

  /** Connections come in file order, and the first problem of the file is the one reported. */
  lemma {:induction false} ConnectionsInOrder(m: ReplicaMap, names: seq<string>, first: seq<Node>, rest: seq<Node>)
    requires (forall n <- first :: HasPorts(n, names)) && forall n <- rest :: HasPorts(n, names)
    ensures forall n <- first + rest :: HasPorts(n, names)
    ensures Connections(m, names, first + rest) == Then(Connections(m, names, first), Connections(m, names, rest))
  {
    if rest == [] {
      var r := Connections(m, names, first);
      assert first + rest == first && (r.Ok? ==> r.value + [] == r.value);
    } else {
      var init, last := rest[..|rest| - 1], rest[|rest| - 1];
      assert rest == init + [last] && first + rest == (first + init) + [last];
      ConnectionsInOrder(m, names, first, init);
      LastComesLast(m, names, first + init, last);
      LastComesLast(m, names, init, last);
      ThenThen(Connections(m, names, first), Connections(m, names, init), Expanded(m, names, last));
    }
  }

  lemma OneSpecification(m: ReplicaMap, names: seq<string>, n: Node)
    requires HasPorts(n, names)
    ensures Connections(m, names, [n]) == Expanded(m, names, n)
  {
    assert [] + [n] == [n];
    LastComesLast(m, names, [], n);
    assert Expanded(m, names, n).Ok? ==> [] + Expanded(m, names, n).value == Expanded(m, names, n).value;
  }

  /** And all of every contribution is in the result. */
  lemma {:induction false} ContributionsAreIn(m: ReplicaMap, names: seq<string>, nodes: seq<Node>, n: Node)
    requires forall n <- nodes :: HasPorts(n, names)
    requires Connections(m, names, nodes).Ok? && n in nodes
    ensures Problem(m, names, n) == None
    ensures forall c <- Contribution(m, names, n) :: c in Connections(m, names, nodes).value
  {
    var init, last := nodes[..|nodes| - 1], nodes[|nodes| - 1];
    if n != last {
      assert n in init;
      ContributionsAreIn(m, names, init, n);
    }
  }
}

/** The two traversals of a configuration agree: whatever connects, exists, and exists once. */
module GraphConfig {
  import opened Wrappers
  import opened ReplicaIds
  import opened ProxelConfigs
  import opened ProxelConnections

  // ---------- Names of the enabled proxels ----------

  function IdsOfReplicas(name: string, n: nat): seq<string> {
    seq(n, i requires 0 <= i < n => ReplicaId(name, i))
  }

  /** The ids an enabled entry stands for, as configurations. */
  function Ids(e: Entry): seq<string> {
    if !Enabled(e) then []
    else if Replicas(e) > 1 then IdsOfReplicas(e.name, Replicas(e))
    else [e.name]
  }

  /** The names under which connections may refer to an entry: its ids, and its own name too. */
  function Names(e: Entry, enabled: bool): seq<string> {
    if Enabled(e) != enabled then []
    else if Replicas(e) > 1 then IdsOfReplicas(e.name, Replicas(e)) + [e.name]
    else [e.name]
  }

  function FlatMap<S, T>(xs: seq<S>, f: S -> seq<T>): seq<T> {
    if xs == [] then [] else FlatMap(xs[..|xs| - 1], f) + f(xs[|xs| - 1])
  }

  lemma {:induction false} FlatMapAppend<S, T>(a: seq<S>, b: seq<S>, f: S -> seq<T>)
    ensures FlatMap(a + b, f) == FlatMap(a, f) + FlatMap(b, f)
  {
    if b == [] {
      assert a + b == a;
    } else {
      assert (a + b)[..|a + b| - 1] == a + b[..|b| - 1];
      FlatMapAppend(a, b[..|b| - 1], f);
    }
  }

  lemma {:induction false} InFlatMap<S, T>(xs: seq<S>, f: S -> seq<T>, y: T)
    ensures y in FlatMap(xs, f) <==> exists x <- xs :: y in f(x)
  {
    if xs != [] {
      InFlatMap(xs[..|xs| - 1], f, y);
      assert forall x :: x in xs <==> x in xs[..|xs| - 1] || x == xs[|xs| - 1];
    }
  }

  function NamesFor(enabled: bool): Entry -> seq<string> {
    e => Names(e, enabled)
  }

  function AllNames(entries: seq<Entry>, enabled: bool): seq<string> {
    FlatMap(entries, NamesFor(enabled))
  }

  function AllIds(entries: seq<Entry>): seq<string> {
    FlatMap(entries, Ids)
  }

  method GetNames(section: seq<Entry>, enabled: bool) returns (names: seq<string>)
    ensures names == AllNames(section, enabled)
  {
    names := [];
    for i := 0 to |section|
      invariant names == AllNames(section[..i], enabled)
    {
      assert section[..i + 1][..i] == section[..i];
      var e := section[i];
      ghost var before := names;
      if Enabled(e) == enabled {
        var n := Replicas(e);
        if n > 1 {
          for idx := 0 to n
            invariant names == before + IdsOfReplicas(e.name, idx)
          {
            names := names + [ReplicaId(e.name, idx)];
          }
        }
        names := names + [e.name];
      }
      assert names == before + Names(e, enabled);
    }
    assert section[..|section|] == section;
  }

  method GetAllNames(sections: seq<seq<Entry>>, enabled: bool) returns (names: seq<string>)
    ensures names == AllNames(Flat(sections), enabled)
  {
    names := [];
    for i := 0 to |sections|
      invariant names == AllNames(Flat(sections[..i]), enabled)
    {
      assert sections[..i + 1][..i] == sections[..i];
      var more := GetNames(sections[i], enabled);
      FlatMapAppend(Flat(sections[..i]), sections[i], NamesFor(enabled));
      names := names + more;
    }
    assert sections[..|sections|] == sections;
  }

  // ---------- The replica map, which ignores `enable` ----------

  /** Within a section a later definition wins. */
  function SectionReplicas(section: seq<Entry>): ReplicaMap {
    if section == [] then map[] else
    var m, e := SectionReplicas(section[..|section| - 1]), section[|section| - 1];
    if Replicas(e) > 1 then m[e.name := Replicas(e)] else m
  }

  /** Across sections the first definition wins. */
  function AllReplicas(sections: seq<seq<Entry>>): ReplicaMap {
    if sections == [] then map[] else
    SectionReplicas(sections[|sections| - 1]) + AllReplicas(sections[..|sections| - 1])
  }

  method GetAllReplicas(sections: seq<seq<Entry>>) returns (m: ReplicaMap)
    ensures m == AllReplicas(sections)
  {
    m := map[];
    for i := 0 to |sections|
      invariant m == AllReplicas(sections[..i])
    {
      assert sections[..i + 1][..i] == sections[..i];
      var section := sections[i];
      var found: ReplicaMap := map[];
      for j := 0 to |section|
        invariant found == SectionReplicas(section[..j])
      {
        assert section[..j + 1][..j] == section[..j];
        if Replicas(section[j]) > 1 {
          found := found[section[j].name := Replicas(section[j])];
        }
      }
      assert section[..|section|] == section;
      m := found + m;
    }
    assert sections[..|sections|] == sections;
  }

  // ---------- Hypotheses on the file ----------

  ghost predicate DistinctNames(entries: seq<Entry>) {
    forall i, j | 0 <= i < |entries| && 0 <= j < |entries| && entries[i].name == entries[j].name :: i == j
  }

  /** No declared name is the id generated for a replica of an enabled proxel. */
  ghost predicate NoGeneratedName(entries: seq<Entry>) {
    forall e <- entries, f <- entries, k: nat | Enabled(f) && k < Replicas(f) && Replicas(f) > 1 ::
      e.name != ReplicaId(f.name, k)
  }

  /** No two enabled single proxels, and no two enabled replicated ones, have the same name. */
  ghost predicate NoTwins(entries: seq<Entry>) {
    forall i, j | 0 <= i < j < |entries| && Enabled(entries[i]) && Enabled(entries[j])
      && entries[i].name == entries[j].name :: (Replicas(entries[i]) > 1) != (Replicas(entries[j]) > 1)
  }

  /** No single proxel is declared under a replica's id, both enabled. */
  ghost predicate NoIdDeclared(entries: seq<Entry>) {
    forall e <- entries, f <- entries, k: nat
      | Enabled(e) && Replicas(e) <= 1 && Enabled(f) && Replicas(f) > 1 && k < Replicas(f) ::
      e.name != ReplicaId(f.name, k)
  }

  // ---------- What is in the lists ----------

  /** The names of the entries with that `enable` value: each its own, and those of its replicas. */
  lemma InAllNames(entries: seq<Entry>, enabled: bool, name: string)
    ensures name in AllNames(entries, enabled) <==>
            exists e <- entries :: (Lookup(e.properties, "enable") != Some(Flag(false))) == enabled && NamedBy(e, name)
  {
    InFlatMap(entries, NamesFor(enabled), name);
    forall e ensures name in NamesFor(enabled)(e) <==>
                     (Lookup(e.properties, "enable") != Some(Flag(false))) == enabled && NamedBy(e, name)
    {
      if name in NamesFor(enabled)(e) && name != e.name {
        var k :| 0 <= k < |Names(e, enabled)| && Names(e, enabled)[k] == name;
        assert name == ReplicaId(e.name, k);
      }
      if exists k: nat :: k < Replicas(e) && Replicas(e) > 1 && name == ReplicaId(e.name, k) {
        var k: nat :| k < Replicas(e) && Replicas(e) > 1 && name == ReplicaId(e.name, k);
        if Enabled(e) == enabled {
          assert Names(e, enabled)[k] == name;
        }
      }
      if name == e.name && Enabled(e) == enabled {
        assert Names(e, enabled)[|Names(e, enabled)| - 1] == name;
      }
    }
  }

  ghost predicate NamedBy(e: Entry, name: string) {
    name == e.name || exists k: nat :: k < Replicas(e) && Replicas(e) > 1 && name == ReplicaId(e.name, k)
  }

  lemma EnabledNames(entries: seq<Entry>, name: string)
    ensures name in AllNames(entries, true) <==>
            exists e <- entries :: name in Ids(e) || (Enabled(e) && name == e.name)
  {
    InFlatMap(entries, NamesFor(true), name);
    assert forall e :: name in NamesFor(true)(e) <==> name in Ids(e) || (Enabled(e) && name == e.name);
  }

  lemma {:induction false} InSectionReplicas(section: seq<Entry>, name: string)
    ensures name in SectionReplicas(section) <==> exists e <- section :: e.name == name && Replicas(e) > 1
    ensures name in SectionReplicas(section) ==>
              exists e <- section :: e.name == name && Replicas(e) > 1 && SectionReplicas(section)[name] == Replicas(e)
  {
    if section != [] {
      InSectionReplicas(section[..|section| - 1], name);
      assert forall e :: e in section <==> e in section[..|section| - 1] || e == section[|section| - 1];
    }
  }

  lemma {:induction false} InAllReplicas(sections: seq<seq<Entry>>, name: string)
    ensures name in AllReplicas(sections) <==> exists e <- Flat(sections) :: e.name == name && Replicas(e) > 1
    ensures name in AllReplicas(sections) ==>
              exists e <- Flat(sections) :: e.name == name && Replicas(e) > 1 && AllReplicas(sections)[name] == Replicas(e)
  {
    if sections != [] {
      InAllReplicas(sections[..|sections| - 1], name);
      InSectionReplicas(sections[|sections| - 1], name);
    }
  }

  predicate Defines(e: Entry, name: string) {
    e.name == name && Replicas(e) > 1
  }

  /** The last definition of `name` in the first section that has one. */
  ghost predicate Rules(sections: seq<seq<Entry>>, i: nat, j: nat, name: string) {
    && i < |sections| && j < |sections[i]| && Defines(sections[i][j], name)
    && (forall k | j < k < |sections[i]| :: !Defines(sections[i][k], name))
    && (forall k | 0 <= k < i :: forall e <- sections[k] :: !Defines(e, name))
  }

  lemma {:induction false} LastInSectionRules(section: seq<Entry>, j: nat, name: string)
    requires j < |section| && Defines(section[j], name)
    requires forall k | j < k < |section| :: !Defines(section[k], name)
    ensures name in SectionReplicas(section) && SectionReplicas(section)[name] == Replicas(section[j])
  {
    if j < |section| - 1 {
      LastInSectionRules(section[..|section| - 1], j, name);
    }
  }

  lemma {:induction false} RulingDefinition(sections: seq<seq<Entry>>, i: nat, j: nat, name: string)
    requires Rules(sections, i, j, name)
    ensures name in AllReplicas(sections) && AllReplicas(sections)[name] == Replicas(sections[i][j])
  {
    var n := |sections| - 1;
    if i < n {
      assert Rules(sections[..n], i, j, name);
      RulingDefinition(sections[..n], i, j, name);
    } else {
      LastInSectionRules(sections[n], j, name);
      InAllReplicas(sections[..n], name);
      NotInFlat(sections[..n], name);
    }
  }

  lemma {:induction false} NotInFlat(sections: seq<seq<Entry>>, name: string)
    requires forall k | 0 <= k < |sections| :: forall e <- sections[k] :: !Defines(e, name)
    ensures forall e <- Flat(sections) :: !Defines(e, name)
  {
    if sections != [] {
      NotInFlat(sections[..|sections| - 1], name);
    }
  }

  lemma {:induction false} LastDefinition(section: seq<Entry>, name: string) returns (j: nat)
    requires exists e <- section :: Defines(e, name)
    ensures j < |section| && Defines(section[j], name)
    ensures forall k | j < k < |section| :: !Defines(section[k], name)
  {
    var n := |section| - 1;
    if Defines(section[n], name) {
      j := n;
    } else {
      j := LastDefinition(section[..n], name);
    }
  }

  /** A name that the replica map knows has a definition that rules. */
  lemma {:induction false} SomeDefinitionRules(sections: seq<seq<Entry>>, name: string) returns (i: nat, j: nat)
    requires name in AllReplicas(sections)
    ensures Rules(sections, i, j, name)
  {
    var n := |sections| - 1;
    var init := sections[..n];
    assert forall k | 0 <= k < n :: init[k] == sections[k];
    if name in AllReplicas(init) {
      i, j := SomeDefinitionRules(init, name);
    } else {
      InSectionReplicas(sections[n], name);
      i := n;
      j := LastDefinition(sections[n], name);
      InAllReplicas(init, name);
      NoneInSections(init, name);
    }
  }

  lemma {:induction false} NoneInSections(sections: seq<seq<Entry>>, name: string)
    requires forall e <- Flat(sections) :: !Defines(e, name)
    ensures forall k | 0 <= k < |sections| :: forall e <- sections[k] :: !Defines(e, name)
  {
    if sections != [] {
      NoneInSections(sections[..|sections| - 1], name);
      assert forall k | 0 <= k < |sections| - 1 :: sections[k] == sections[..|sections| - 1][k];
    }
  }

  // ---------- Agreement ----------

  lemma {:induction false} ConfigIdsAre(entries: seq<Entry>)
    requires Configs(entries).Ok?
    ensures |Configs(entries).value| == |AllIds(entries)|
    ensures forall i | 0 <= i < |AllIds(entries)| :: Configs(entries).value[i].id == AllIds(entries)[i]
  {
    if entries != [] {
      var init, e := entries[..|entries| - 1], entries[|entries| - 1];
      ConfigIdsAre(init);
      if Enabled(e) && Replicas(e) > 1 {
        ReplicaConfigsAre(e.name, e.properties, Replicas(e), Replicas(e));
      }
    }
  }

  ghost predicate Distinct(ids: seq<string>) {
    forall i, j | 0 <= i < j < |ids| :: ids[i] != ids[j]
  }

  /** Two entries share an id only if they have the same name and are both single or both replicated. */
  lemma SharedIdsClash(entries: seq<Entry>, e: Entry, f: Entry, i: nat, j: nat)
    requires NoIdDeclared(entries) && e in entries && f in entries
    requires i < |Ids(e)| && j < |Ids(f)| && Ids(e)[i] == Ids(f)[j]
    ensures e.name == f.name && Enabled(e) && Enabled(f) && (Replicas(e) > 1 <==> Replicas(f) > 1)
  {
    if Replicas(e) > 1 && Replicas(f) > 1 {
      ReplicaIdInjective(e.name, i, f.name, j);
    }
  }

  lemma EntryIdsDistinct(e: Entry)
    ensures Distinct(Ids(e))
  {
    forall i, j | 0 <= i < j < |Ids(e)| ensures Ids(e)[i] != Ids(e)[j] {
      if Ids(e)[i] == Ids(e)[j] {
        ReplicaIdInjective(e.name, i, e.name, j);
      }
    }
  }

  lemma NewIdsAreNew(entries: seq<Entry>, id: string)
    requires NoIdDeclared(entries) && NoTwins(entries) && entries != []
    requires id in AllIds(entries[..|entries| - 1])
    ensures id !in Ids(entries[|entries| - 1])
  {
    var init, last := entries[..|entries| - 1], entries[|entries| - 1];
    InFlatMap(init, Ids, id);
    var e :| e in init && id in Ids(e);
    var a :| 0 <= a < |init| && init[a] == e;
    var i :| 0 <= i < |Ids(e)| && Ids(e)[i] == id;
    forall j | 0 <= j < |Ids(last)| ensures Ids(last)[j] != id {
      if Ids(last)[j] == id {
        assert entries[a] == e;
        SharedIdsClash(entries, e, last, i, j);
      }
    }
  }

  lemma {:induction false} AllIdsDistinct(entries: seq<Entry>)
    requires NoTwins(entries) && NoIdDeclared(entries)
    ensures Distinct(AllIds(entries))
  {
    if entries != [] {
      var init, last := entries[..|entries| - 1], entries[|entries| - 1];
      assert forall k | 0 <= k < |init| :: init[k] == entries[k];
      assert NoTwins(init) && NoIdDeclared(init);
      AllIdsDistinct(init);
      EntryIdsDistinct(last);
      forall i | 0 <= i < |AllIds(init)| ensures AllIds(init)[i] !in Ids(last) {
        NewIdsAreNew(entries, AllIds(init)[i]);
      }
      DistinctJoin(AllIds(init), Ids(last));
    }
  }

  lemma DistinctJoin(a: seq<string>, b: seq<string>)
    requires Distinct(a) && Distinct(b) && forall i | 0 <= i < |a| :: a[i] !in b
    ensures Distinct(a + b)
  {
  }

  /** In a list without duplicates no two entries share an id. */
  lemma {:induction false} SharedIdRepeats(entries: seq<Entry>, i: nat, j: nat, id: string)
    requires i < j < |entries| && id in Ids(entries[i]) && id in Ids(entries[j])
    ensures !Distinct(AllIds(entries))
  {
    var init, last := entries[..|entries| - 1], entries[|entries| - 1];
    var a, b := AllIds(init), Ids(last);
    assert AllIds(entries) == a + b;
    if j < |init| {
      SharedIdRepeats(init, i, j, id);
      var x, y :| 0 <= x < y < |a| && a[x] == a[y];
      assert (a + b)[x] == (a + b)[y];
    } else {
      InFlatMap(init, Ids, id);
      assert init[i] in init;
      var x :| 0 <= x < |a| && a[x] == id;
      var y :| 0 <= y < |b| && b[y] == id;
      assert (a + b)[x] == (a + b)[|a| + y];
    }
  }

  lemma TwinsShareAnId(entries: seq<Entry>)
    requires !NoTwins(entries)
    ensures !Distinct(AllIds(entries))
  {
    var i, j :| 0 <= i < j < |entries| && Enabled(entries[i]) && Enabled(entries[j])
                && entries[i].name == entries[j].name && (Replicas(entries[i]) > 1) == (Replicas(entries[j]) > 1);
    var id := Ids(entries[i])[0];
    assert id == Ids(entries[j])[0];
    SharedIdRepeats(entries, i, j, id);
  }

  lemma DeclaredIdIsShared(entries: seq<Entry>)
    requires !NoIdDeclared(entries)
    ensures !Distinct(AllIds(entries))
  {
    var e, f, k: nat :| e in entries && f in entries && Enabled(e) && Replicas(e) <= 1
                        && Enabled(f) && Replicas(f) > 1 && k < Replicas(f) && e.name == ReplicaId(f.name, k);
    var i :| 0 <= i < |entries| && entries[i] == e;
    var j :| 0 <= j < |entries| && entries[j] == f;
    assert Ids(e)[0] == e.name && Ids(f)[k] == e.name;
    SharedIdRepeats(entries, if i < j then i else j, if i < j then j else i, e.name);
  }

  /** The duplicate check stays silent exactly when, among the enabled entries, no two single ones and
      no two replicated ones have the same name, and no single one bears a replica's id. */
  lemma IdsDistinctIff(entries: seq<Entry>)
    ensures Distinct(AllIds(entries)) <==> NoTwins(entries) && NoIdDeclared(entries)
  {
    if !NoTwins(entries) {
      TwinsShareAnId(entries);
    } else if !NoIdDeclared(entries) {
      DeclaredIdIsShared(entries);
    } else {
      AllIdsDistinct(entries);
    }
  }

  // ---------- Agreement of connections and configurations ----------

  /** The replica map knows a declared name by its own entry only. */
  lemma ReplicasAsDeclared(sections: seq<seq<Entry>>, e: Entry)
    requires DistinctNames(Flat(sections)) && e in Flat(sections)
    ensures ReplicasOf(AllReplicas(sections), e.name) == if Replicas(e) > 1 then Replicas(e) else 1
  {
    InAllReplicas(sections, e.name);
    var entries := Flat(sections);
    assert forall f <- entries | f.name == e.name :: f == e;
  }

  /** A generated id is not in the replica map. */
  lemma GeneratedIsSingle(sections: seq<seq<Entry>>, e: Entry, k: nat)
    requires NoGeneratedName(Flat(sections)) && e in Flat(sections) && Enabled(e) && Replicas(e) > 1 && k < Replicas(e)
    ensures ReplicasOf(AllReplicas(sections), ReplicaId(e.name, k)) == 1
  {
    InAllReplicas(sections, ReplicaId(e.name, k));
  }

  /** What an enabled name expands to are ids. */
  lemma EndpointIsId(sections: seq<seq<Entry>>, s: PortSpec, i: nat)
    requires DistinctNames(Flat(sections)) && NoGeneratedName(Flat(sections))
    requires s.proxel in AllNames(Flat(sections), true) && |s.ports| >= 1
    requires i < Width(s, ReplicasOf(AllReplicas(sections), s.proxel))
    ensures EndpointAt(s, ReplicasOf(AllReplicas(sections), s.proxel), i).proxel in AllIds(Flat(sections))
  {
    var id := EndpointAt(s, ReplicasOf(AllReplicas(sections), s.proxel), i).proxel;
    EnabledNames(Flat(sections), s.proxel);
    InFlatMap(Flat(sections), Ids, id);
    var e :| e in Flat(sections) && (s.proxel in Ids(e) || (Enabled(e) && s.proxel == e.name));
    if s.proxel == e.name {
      ReplicasAsDeclared(sections, e);
      assert Ids(e)[if Replicas(e) > 1 then i else 0] == id;
    } else {
      var k :| 0 <= k < |Ids(e)| && Ids(e)[k] == s.proxel;
      GeneratedIsSingle(sections, e, k);
    }
  }

  /** Both ends of a connection are ids. */
  lemma EndpointsAreIds(sections: seq<seq<Entry>>, nodes: seq<Node>, c: Connection)
    requires DistinctNames(Flat(sections)) && NoGeneratedName(Flat(sections))
    requires forall n <- nodes :: HasPorts(n, AllNames(Flat(sections), true))
    requires Connections(AllReplicas(sections), AllNames(Flat(sections), true), nodes).Ok?
    requires c in Connections(AllReplicas(sections), AllNames(Flat(sections), true), nodes).value
    ensures c.lhs.proxel in AllIds(Flat(sections)) && c.rhs.proxel in AllIds(Flat(sections))
  {
    var m, names := AllReplicas(sections), AllNames(Flat(sections), true);
    ExpansionFailsIff(m, names, nodes);
    var n :| n in nodes && Problem(m, names, n) == None && c in Contribution(m, names, n);
    var i :| 0 <= i < |Contribution(m, names, n)| && c == PairAt(m, n, i);
    EndpointIsId(sections, n.lhs, if Width(n.lhs, ReplicasOf(m, n.lhs.proxel)) == 1 then 0 else i);
    EndpointIsId(sections, n.rhs, if Width(n.rhs, ReplicasOf(m, n.rhs.proxel)) == 1 then 0 else i);
  }

  ghost predicate DistinctIds(configs: seq<Config>) {
    forall i, j | 0 <= i < j < |configs| :: configs[i].id != configs[j].id
  }

  function ConfigIds(configs: seq<Config>): set<string> {
    set i | 0 <= i < |configs| :: configs[i].id
  }

  lemma ConfigsHaveIds(entries: seq<Entry>)
    requires Configs(entries).Ok?
    ensures var configs := Configs(entries).value;
            && (DistinctIds(configs) <==> NoTwins(entries) && NoIdDeclared(entries))
            && forall id :: id in ConfigIds(configs) <==> id in AllIds(entries)
  {
    ConfigIdsAre(entries);
    IdsDistinctIff(entries);
  }

  /** Every connection joins two configurations that exist, and each of them exactly once. */
  lemma ConnectionsMeetConfigs(sections: seq<seq<Entry>>, nodes: seq<Node>)
    requires DistinctNames(Flat(sections)) && NoGeneratedName(Flat(sections))
    requires forall n <- nodes :: HasPorts(n, AllNames(Flat(sections), true))
    requires Configs(Flat(sections)).Ok?
    requires Connections(AllReplicas(sections), AllNames(Flat(sections), true), nodes).Ok?
    ensures var configs := Configs(Flat(sections)).value;
            && (forall i, j | 0 <= i < j < |configs| :: configs[i].id != configs[j].id)
            && forall c <- Connections(AllReplicas(sections), AllNames(Flat(sections), true), nodes).value ::
                 && (exists i | 0 <= i < |configs| :: configs[i].id == c.lhs.proxel)
                 && (exists i | 0 <= i < |configs| :: configs[i].id == c.rhs.proxel)
  {
    var configs := Configs(Flat(sections)).value;
    ConfigsHaveIds(Flat(sections));
    forall c | c in Connections(AllReplicas(sections), AllNames(Flat(sections), true), nodes).value
      ensures c.lhs.proxel in ConfigIds(configs) && c.rhs.proxel in ConfigIds(configs)
    {
      EndpointsAreIds(sections, nodes, c);
    }
  }

  // ---------- When endpoints exist ----------

  /** All that one end of a specification expands to are ids. */
  ghost predicate EndKnown(sections: seq<seq<Entry>>, s: PortSpec) {
    var r := ReplicasOf(AllReplicas(sections), s.proxel);
    if r > 1 then forall k: nat | k < r :: ReplicaId(s.proxel, k) in AllIds(Flat(sections))
    else s.proxel in AllIds(Flat(sections))
  }

  ghost predicate EveryEndpointIsId(sections: seq<seq<Entry>>, s: PortSpec)
    requires |s.ports| >= 1
  {
    forall i: nat | i < Width(s, ReplicasOf(AllReplicas(sections), s.proxel)) ::
      EndpointAt(s, ReplicasOf(AllReplicas(sections), s.proxel), i).proxel in AllIds(Flat(sections))
  }

  lemma EndpointName(s: PortSpec, r: nat, i: nat)
    requires |s.ports| >= 1 && i < Width(s, r)
    ensures EndpointAt(s, r, i).proxel == if r > 1 then ReplicaId(s.proxel, i) else s.proxel
  {
  }

  lemma EndKnownIff(sections: seq<seq<Entry>>, s: PortSpec)
    requires |s.ports| >= 1
    ensures EndKnown(sections, s) <==> EveryEndpointIsId(sections, s)
  {
    var r := ReplicasOf(AllReplicas(sections), s.proxel);
    if EndKnown(sections, s) {
      forall i: nat | i < Width(s, r) ensures EndpointAt(s, r, i).proxel in AllIds(Flat(sections)) {
        EndpointName(s, r, i);
      }
    } else if r > 1 {
      var k: nat :| k < r && ReplicaId(s.proxel, k) !in AllIds(Flat(sections));
      EndpointName(s, r, k);
      assert EndpointAt(s, r, k).proxel !in AllIds(Flat(sections));
    } else {
      EndpointName(s, r, 0);
      assert EndpointAt(s, r, 0).proxel !in AllIds(Flat(sections));
    }
  }

  ghost predicate EndsAreIds(sections: seq<seq<Entry>>, c: Connection) {
    c.lhs.proxel in AllIds(Flat(sections)) && c.rhs.proxel in AllIds(Flat(sections))
  }

  /** What a specification contributes joins ids if and only if all that its two ends expand to are
      ids: `i` of one end that has more than one is paired with `i` of the other. */
  lemma ContributionEndsIff(sections: seq<seq<Entry>>, names: seq<string>, n: Node)
    requires HasPorts(n, names) && Problem(AllReplicas(sections), names, n) == None
    ensures (forall c <- Contribution(AllReplicas(sections), names, n) :: EndsAreIds(sections, c)) <==>
            (Usable(n, names) ==> EndKnown(sections, n.lhs) && EndKnown(sections, n.rhs))
  {
    if Usable(n, names) {
      EndKnownIff(sections, n.lhs);
      EndKnownIff(sections, n.rhs);
      if EndKnown(sections, n.lhs) && EndKnown(sections, n.rhs) {
        KnownEndsContributeIds(sections, names, n);
      } else if forall c <- Contribution(AllReplicas(sections), names, n) :: EndsAreIds(sections, c) {
        ContributedIdsAreKnown(sections, names, n);
      }
    }
  }

  lemma KnownEndsContributeIds(sections: seq<seq<Entry>>, names: seq<string>, n: Node)
    requires HasPorts(n, names) && Problem(AllReplicas(sections), names, n) == None && Usable(n, names)
    requires EveryEndpointIsId(sections, n.lhs) && EveryEndpointIsId(sections, n.rhs)
    ensures forall c <- Contribution(AllReplicas(sections), names, n) :: EndsAreIds(sections, c)
  {
    var m := AllReplicas(sections);
    var all := Contribution(m, names, n);
    EveryEndAppears(m, n);
    forall c | c in all ensures EndsAreIds(sections, c) {
      var i :| 0 <= i < |all| && all[i] == c;
      assert c == PairAt(m, n, i);
    }
  }

  lemma ContributedIdsAreKnown(sections: seq<seq<Entry>>, names: seq<string>, n: Node)
    requires HasPorts(n, names) && Problem(AllReplicas(sections), names, n) == None && Usable(n, names)
    requires forall c <- Contribution(AllReplicas(sections), names, n) :: EndsAreIds(sections, c)
    ensures EveryEndpointIsId(sections, n.lhs) && EveryEndpointIsId(sections, n.rhs)
  {
    var m := AllReplicas(sections);
    var all := Contribution(m, names, n);
    EveryEndAppears(m, n);
    forall i: nat | i < |all| ensures EndsAreIds(sections, PairAt(m, n, i)) {
      assert all[i] in all;
    }
  }

  lemma EveryEndAppears(m: ReplicaMap, n: Node)
    requires n.Pair? && |n.lhs.ports| >= 1 && |n.rhs.ports| >= 1
    requires var l, r := Width(n.lhs, ReplicasOf(m, n.lhs.proxel)), Width(n.rhs, ReplicasOf(m, n.rhs.proxel));
             l == r || l == 1 || r == 1
    ensures var lr, rr := ReplicasOf(m, n.lhs.proxel), ReplicasOf(m, n.rhs.proxel);
            var l, r := Width(n.lhs, lr), Width(n.rhs, rr);
            && (forall i: nat | i < l :: PairAt(m, n, i).lhs == EndpointAt(n.lhs, lr, i))
            && (forall i: nat | i < r :: PairAt(m, n, i).rhs == EndpointAt(n.rhs, rr, i))
            && (forall i: nat | i < Max(l, r) :: PairAt(m, n, i).lhs == EndpointAt(n.lhs, lr, if l == 1 then 0 else i))
            && (forall i: nat | i < Max(l, r) :: PairAt(m, n, i).rhs == EndpointAt(n.rhs, rr, if r == 1 then 0 else i))
  {
  }

  // ---------- When a proxel would be connected to itself ----------

  predicate Loops(c: Connection) {
    c.lhs.proxel == c.rhs.proxel
  }

  /** The two ends are the same proxel or the same replicas, or a replica and a proxel under its id. */
  ghost predicate EndsMeet(m: ReplicaMap, n: Node)
    requires n.Pair?
  {
    var l, r := ReplicasOf(m, n.lhs.proxel), ReplicasOf(m, n.rhs.proxel);
    if l > 1 && r > 1 then n.lhs.proxel == n.rhs.proxel
    else if l > 1 then exists k: nat :: k < l && ReplicaId(n.lhs.proxel, k) == n.rhs.proxel
    else if r > 1 then exists k: nat :: k < r && n.lhs.proxel == ReplicaId(n.rhs.proxel, k)
    else n.lhs.proxel == n.rhs.proxel
  }

  lemma PairProxels(m: ReplicaMap, n: Node, i: nat)
    requires n.Pair? && |n.lhs.ports| >= 1 && |n.rhs.ports| >= 1
    requires var l, r := Width(n.lhs, ReplicasOf(m, n.lhs.proxel)), Width(n.rhs, ReplicasOf(m, n.rhs.proxel));
             (l == r || l == 1 || r == 1) && i < Max(l, r)
    ensures var l, r := ReplicasOf(m, n.lhs.proxel), ReplicasOf(m, n.rhs.proxel);
            && PairAt(m, n, i).lhs.proxel == (if l > 1 then ReplicaId(n.lhs.proxel, i) else n.lhs.proxel)
            && PairAt(m, n, i).rhs.proxel == (if r > 1 then ReplicaId(n.rhs.proxel, i) else n.rhs.proxel)
            && (l > 1 && r > 1 ==> l == r) && (l > 1 ==> i < l) && (r > 1 ==> i < r)
  {
  }

  lemma PairLoopsMeansMeeting(m: ReplicaMap, n: Node, i: nat)
    requires n.Pair? && |n.lhs.ports| >= 1 && |n.rhs.ports| >= 1
    requires var l, r := Width(n.lhs, ReplicasOf(m, n.lhs.proxel)), Width(n.rhs, ReplicasOf(m, n.rhs.proxel));
             (l == r || l == 1 || r == 1) && i < Max(l, r)
    requires Loops(PairAt(m, n, i))
    ensures EndsMeet(m, n)
  {
    PairProxels(m, n, i);
    if ReplicasOf(m, n.lhs.proxel) > 1 && ReplicasOf(m, n.rhs.proxel) > 1 {
      ReplicaIdInjective(n.lhs.proxel, i, n.rhs.proxel, i);
    }
  }

  /** Which pair of a specification whose ends meet is a loop. */
  lemma MeetingMeansPairLoops(m: ReplicaMap, n: Node) returns (i: nat)
    requires n.Pair? && |n.lhs.ports| >= 1 && |n.rhs.ports| >= 1
    requires var l, r := Width(n.lhs, ReplicasOf(m, n.lhs.proxel)), Width(n.rhs, ReplicasOf(m, n.rhs.proxel));
             l == r || l == 1 || r == 1
    requires EndsMeet(m, n)
    ensures i < Max(Width(n.lhs, ReplicasOf(m, n.lhs.proxel)), Width(n.rhs, ReplicasOf(m, n.rhs.proxel)))
    ensures Loops(PairAt(m, n, i))
  {
    var l, r := ReplicasOf(m, n.lhs.proxel), ReplicasOf(m, n.rhs.proxel);
    i := 0;
    if l > 1 && r <= 1 {
      i :| i < l && ReplicaId(n.lhs.proxel, i) == n.rhs.proxel;
    } else if l <= 1 && r > 1 {
      i :| i < r && n.lhs.proxel == ReplicaId(n.rhs.proxel, i);
    }
    PairProxels(m, n, i);
  }

  /** A specification contributes a connection of a proxel with itself if and only if its ends meet. */
  lemma ContributionLoopsIff(m: ReplicaMap, names: seq<string>, n: Node)
    requires HasPorts(n, names) && Problem(m, names, n) == None
    ensures (exists c <- Contribution(m, names, n) :: Loops(c)) <==> Usable(n, names) && EndsMeet(m, n)
  {
    if Usable(n, names) {
      var all := Contribution(m, names, n);
      if exists c <- all :: Loops(c) {
        var c :| c in all && Loops(c);
        var i :| 0 <= i < |all| && all[i] == c;
        PairLoopsMeansMeeting(m, n, i);
      }
      if EndsMeet(m, n) {
        var i := MeetingMeansPairLoops(m, n);
        assert all[i] in all && Loops(all[i]);
      }
    }
  }
}

/** From proxel sections to proxel configurations: disabled proxels are skipped, replicated ones
    become one configuration per replica, and a list under a `$key` is dealt out over the replicas.
 */
module ProxelConfigs {
  import opened Wrappers
  import opened ReplicaIds

  datatype Result<+T> = Ok(value: T) | Fail(error: Error)
  datatype Error =
    | ListSize | NoType                       // reading configurations
    | BadFormat | Ambiguous | SizeMismatch    // reading connections
    | Duplicate | NoFactory | FactoryFailed   // creating proxels
    | Loop | NoProxel | NoPort | NullPort | ConnectRefused  // connecting them

  datatype Value = Flag(flag: bool) | Number(number: nat) | Text(text: string) | List(items: seq<Value>)

  type Properties = seq<(string, Value)>
  datatype Entry = Entry(name: string, properties: Properties)
  datatype Config = Config(id: string, typ: string, properties: map<string, Value>)

  function Lookup(p: Properties, key: string): Option<Value> {
    if p == [] then None
    else if p[0].0 == key then Some(p[0].1)
    else Lookup(p[1..], key)
  }

  predicate Enabled(e: Entry) {
    var v := Lookup(e.properties, "enable");
    v.Some? && v.value.Flag? ==> v.value.flag
  }

  function Replicas(e: Entry): nat {
    var v := Lookup(e.properties, "replicate");
    if v.Some? && v.value.Number? then v.value.number else 1
  }

  function Size(v: Value): nat {
    if v.List? then |v.items| else 0
  }

  predicate Dealt(key: string) {
    key != [] && key[0] == '$'
  }

  function AsMap(p: Properties): (m: map<string, Value>)
  {
    if p == [] then map[] else AsMap(p[..|p| - 1])[p[|p| - 1].0 := p[|p| - 1].1]
  }

  // ---------- One replica ----------

  /** Some `$key` does not hold one element per replica. */
  predicate BadList(p: Properties, n: nat) {
    exists kv <- p :: Dealt(kv.0) && Size(kv.1) != n
  }

  /** The properties of replica `idx`, as assigned property by property in file order. */
  function Dealing(whole: map<string, Value>, p: Properties, n: nat, idx: nat): map<string, Value>
    requires idx < n && !BadList(p, n)
  {
    if p == [] then whole - {"replicate"} else
    var init, kv := p[..|p| - 1], p[|p| - 1];
    assert forall x <- init :: x in p;
    var m := Dealing(whole, init, n, idx);
    if Dealt(kv.0) then assert kv in p; (m - {kv.0})[kv.0[1..] := kv.1.items[idx]] else m
  }

  function ReplicaProperties(p: Properties, n: nat, idx: nat): map<string, Value>
    requires idx < n && !BadList(p, n)
  {
    Dealing(AsMap(p), p, n, idx)
  }

  function CreateConfig(id: string, properties: map<string, Value>): Result<Config> {
    if "type" in properties && properties["type"].Text?
    then Ok(Config(id, properties["type"].text, properties))
    else Fail(NoType)
  }

  /** The first `count` of `n` replicas. */
  function ReplicaConfigs(name: string, p: Properties, n: nat, count: nat): Result<seq<Config>>
    requires count <= n
  {
    if count == 0 then Ok([]) else
    match ReplicaConfigs(name, p, n, count - 1)
    case Fail(e) => Fail(e)
    case Ok(configs) =>
      if BadList(p, n) then Fail(ListSize) else
      match CreateConfig(ReplicaId(name, count - 1), ReplicaProperties(p, n, count - 1))
      case Fail(e) => Fail(e)
      case Ok(config) => Ok(configs + [config])
  }

  method GetReplicatedConfigs(name: string, n: nat, p: Properties) returns (r: Result<seq<Config>>)
    ensures r == ReplicaConfigs(name, p, n, n)
  {
    var configs := [];
    for idx := 0 to n
      invariant ReplicaConfigs(name, p, n, idx) == Ok(configs)
    {
      var props := AsMap(p) - {"replicate"};
      for i := 0 to |p|
        invariant !BadList(p[..i], n) && props == Dealing(AsMap(p), p[..i], n, idx)
      {
        var (key, value) := p[i];
        assert p[..i + 1][..i] == p[..i] && p[..i + 1] == p[..i] + [p[i]];
        if Dealt(key) {
          if Size(value) != n {
            assert p[i] in p;
            StaysFailed(name, p, n, idx + 1, n);
            return Fail(ListSize);
          }
          props := props - {key};
          props := props[key[1..] := value.items[idx]];
        }
      }
      assert p[..|p|] == p;
      var config := CreateConfig(ReplicaId(name, idx), props);
      if config.Fail? {
        StaysFailed(name, p, n, idx + 1, n);
        return Fail(config.error);
      }
      configs := configs + [config.value];
    }
    return Ok(configs);
  }

  lemma StaysFailed(name: string, p: Properties, n: nat, i: nat, j: nat)
    requires i <= j <= n && ReplicaConfigs(name, p, n, i).Fail?
    ensures ReplicaConfigs(name, p, n, j) == ReplicaConfigs(name, p, n, i)
    decreases j - i
  {
    if i < j {
      StaysFailed(name, p, n, i + 1, j);
    }
  }

  lemma {:induction false} ReplicaConfigsAre(name: string, p: Properties, n: nat, count: nat)
    requires 1 <= count <= n
    ensures var r := ReplicaConfigs(name, p, n, count);
            && (BadList(p, n) ==> r == Fail(ListSize))
            && (!BadList(p, n) ==>
                  (r.Ok? <==> forall i | 0 <= i < count :: CreateConfig(ReplicaId(name, i), ReplicaProperties(p, n, i)).Ok?))
            && (r.Ok? ==> |r.value| == count && !BadList(p, n))
            && (r.Ok? ==> forall i | 0 <= i < count ::
                  Ok(r.value[i]) == CreateConfig(ReplicaId(name, i), ReplicaProperties(p, n, i)))
  {
    if count > 1 {
      ReplicaConfigsAre(name, p, n, count - 1);
    } else {
      assert ReplicaConfigs(name, p, n, 0) == Ok([]);
    }
  }

  // ---------- Dealing out and collecting ----------

  lemma {:induction false} LookupLast(p: Properties, kv: (string, Value), key: string)
    ensures Lookup(p + [kv], key) ==
            if Lookup(p, key).Some? then Lookup(p, key) else if kv.0 == key then Some(kv.1) else None
  {
    if p == [] {
      assert p + [kv] == [kv];
    } else {
      assert (p + [kv])[1..] == p[1..] + [kv] && (p + [kv])[0] == p[0];
      LookupLast(p[1..], kv, key);
    }
  }

  ghost predicate DistinctKeys(p: Properties) {
    forall i, j | 0 <= i < j < |p| :: p[i].0 != p[j].0
  }

  lemma {:induction false} LookupFinds(p: Properties, key: string)
    ensures Lookup(p, key).Some? <==> exists kv <- p :: kv.0 == key
    ensures Lookup(p, key).Some? ==> (key, Lookup(p, key).value) in p
    ensures DistinctKeys(p) ==> forall kv <- p | kv.0 == key :: Lookup(p, key) == Some(kv.1)
  {
    if p != [] {
      LookupFinds(p[1..], key);
      assert forall kv <- p :: kv == p[0] || kv in p[1..];
      assert DistinctKeys(p) ==> DistinctKeys(p[1..]);
    }
  }

  lemma LastKeyIsNew(p: Properties)
    requires DistinctKeys(p) && p != []
    ensures Lookup(p[..|p| - 1], p[|p| - 1].0) == None
  {
    var init := p[..|p| - 1];
    LookupFinds(init, p[|p| - 1].0);
    assert forall i | 0 <= i < |init| :: init[i].0 != p[|p| - 1].0;
  }

  lemma {:induction false} AsMapLooksUp(p: Properties, key: string)
    requires DistinctKeys(p)
    ensures Lookup(p, key) == if key in AsMap(p) then Some(AsMap(p)[key]) else None
  {
    if p != [] {
      var init, kv := p[..|p| - 1], p[|p| - 1];
      assert p == init + [kv];
      AsMapLooksUp(init, key);
      LookupLast(init, kv, key);
      LastKeyIsNew(p);
    }
  }

  /** Keys are distinct, and no `$key` clashes with a key of its own name. */
  ghost predicate NoClash(p: Properties) {
    DistinctKeys(p) && forall kv <- p | Dealt(kv.0) :: Lookup(p, kv.0[1..]) == None
  }

  /** What replica `idx` reads under `key`, once the properties of `q` have been dealt with. */
  function Reads(p: Properties, q: Properties, n: nat, idx: nat, key: string): Option<Value>
    requires idx < n && !BadList(q, n)
  {
    var dealt := Lookup(q, "$" + key);
    LookupFinds(q, "$" + key);
    if dealt.Some? then assert ("$" + key, dealt.value) in q; Some(dealt.value.items[idx])
    else if key == "replicate" || (Dealt(key) && Lookup(q, key).Some?) then None
    else Lookup(p, key)
  }

  lemma BadListGrows(q: Properties, kv: (string, Value), n: nat)
    requires !BadList(q + [kv], n)
    ensures !BadList(q, n) && (Dealt(kv.0) ==> Size(kv.1) == n)
  {
    assert forall x <- q :: x in q + [kv];
    assert kv in q + [kv];
  }

  /** Dealing out one more property changes what is read as the code's two assignments do. */
  lemma ReadsOneMore(p: Properties, q: Properties, kv: (string, Value), n: nat, idx: nat, key: string)
    requires idx < n && !BadList(q + [kv], n) && kv in p && NoClash(p)
    requires Lookup(q, kv.0) == None && forall x <- q :: x in p
    ensures !BadList(q, n)
    ensures Reads(p, q + [kv], n, idx, key) ==
            if Dealt(kv.0) && key == kv.0[1..] then BadListGrows(q, kv, n); Some(kv.1.items[idx])
            else if Dealt(kv.0) && key == kv.0 then None
            else Reads(p, q, n, idx, key)
  {
    BadListGrows(q, kv, n);
    LookupLast(q, kv, key);
    LookupLast(q, kv, "$" + key);
    if Dealt(kv.0) {
      assert kv.0 == "$" + kv.0[1..];
      if key == kv.0 {
        var dollar := "$" + key;
        assert Dealt(dollar) && dollar[1..] == key;
        LookupFinds(p, key);
        LookupFinds(q, dollar);
        assert forall x <- p :: x.0 != dollar;
      }
    }
  }

  lemma {:induction false} DealingReads(p: Properties, q: Properties, n: nat, idx: nat, key: string)
    requires idx < n && !BadList(p, n) && NoClash(p) && q <= p
    ensures !BadList(q, n)
    ensures var m := Dealing(AsMap(p), q, n, idx);
            Reads(p, q, n, idx, key) == if key in m then Some(m[key]) else None
  {
    PrefixIsPart(p, q);
    AsMapLooksUp(p, key);
    if q != [] {
      var init, kv := q[..|q| - 1], q[|q| - 1];
      assert q == init + [kv] && init <= p;
      DealingReads(p, init, n, idx, key);
      LastKeyIsNew(q);
      PrefixIsPart(p, init);
      ReadsOneMore(p, init, kv, n, idx, key);
    }
  }

  lemma PrefixIsPart(p: Properties, q: Properties)
    requires q <= p
    ensures forall kv <- q :: kv in p
    ensures DistinctKeys(p) ==> DistinctKeys(q)
  {
    assert forall i | 0 <= i < |q| :: q[i] == p[i];
    assert forall kv <- q :: kv in p[..|q|];
  }

  /** A key that is not dealt out reads the same in every replica as in the file, except the count. */
  lemma OtherKeysKept(p: Properties, n: nat, idx: nat, key: string)
    requires idx < n && !BadList(p, n) && NoClash(p) && !Dealt(key) && Lookup(p, "$" + key) == None
    ensures var m := ReplicaProperties(p, n, idx);
            (if key in m then Some(m[key]) else None) == if key == "replicate" then None else Lookup(p, key)
  {
    DealingReads(p, p, n, idx, key);
  }

  lemma DealtKeyReads(p: Properties, n: nat, idx: nat, kv: (string, Value))
    requires idx < n && !BadList(p, n) && NoClash(p) && kv in p && Dealt(kv.0)
    ensures kv.1.List? && |kv.1.items| == n
    ensures var m := ReplicaProperties(p, n, idx);
            kv.0 !in m && kv.0[1..] in m && m[kv.0[1..]] == kv.1.items[idx]
  {
    assert kv.0 == "$" + kv.0[1..];
    LookupFinds(p, kv.0);
    DealingReads(p, p, n, idx, kv.0[1..]);
    DealingReads(p, p, n, idx, kv.0);
    var dollar := "$" + kv.0;
    LookupFinds(p, dollar);
    assert Dealt(dollar) && dollar[1..] == kv.0;
    assert forall x <- p :: x.0 != dollar;
  }

  /** Reading a dealt-out key across the replicas, in index order, gives back the list. */
  lemma DealtThenCollected(p: Properties, n: nat, kv: (string, Value))
    requires n > 0 && !BadList(p, n) && NoClash(p) && kv in p && Dealt(kv.0)
    ensures kv.1.List? && |kv.1.items| == n
    ensures forall idx | 0 <= idx < n :: kv.0[1..] in ReplicaProperties(p, n, idx)
    ensures seq(n, idx requires 0 <= idx < n && kv.0[1..] in ReplicaProperties(p, n, idx) =>
                     ReplicaProperties(p, n, idx)[kv.0[1..]])
            == kv.1.items
  {
    forall idx | 0 <= idx < n
      ensures kv.1.List? && |kv.1.items| == n && kv.0[1..] in ReplicaProperties(p, n, idx)
      ensures ReplicaProperties(p, n, idx)[kv.0[1..]] == kv.1.items[idx]
    {
      DealtKeyReads(p, n, idx, kv);
    }
    DealtKeyReads(p, n, 0, kv);
  }

  // ---------- Sections ----------

  function EntryConfigs(e: Entry): Result<seq<Config>> {
    if !Enabled(e) then Ok([])
    else if Replicas(e) > 1 then ReplicaConfigs(e.name, e.properties, Replicas(e), Replicas(e))
    else
      match CreateConfig(e.name, AsMap(e.properties))
      case Ok(config) => Ok([config])
      case Fail(error) => Fail(error)
  }

  /** The configurations of all entries, in file order; the first failure ends the reading. */
  function Configs(entries: seq<Entry>): Result<seq<Config>> {
    if entries == [] then Ok([]) else
    match Configs(entries[..|entries| - 1])
    case Fail(error) => Fail(error)
    case Ok(configs) =>
      match EntryConfigs(entries[|entries| - 1])
      case Fail(error) => Fail(error)
      case Ok(more) => Ok(configs + more)
  }

  /** Every configuration an enabled entry stands for can be read. */
  predicate Readable(e: Entry) {
    Enabled(e) ==>
      if Replicas(e) > 1 then
        && !BadList(e.properties, Replicas(e))
        && forall i | 0 <= i < Replicas(e) ::
             CreateConfig(ReplicaId(e.name, i), ReplicaProperties(e.properties, Replicas(e), i)).Ok?
      else CreateConfig(e.name, AsMap(e.properties)).Ok?
  }

  lemma EntryConfigsOkIff(e: Entry)
    ensures EntryConfigs(e).Ok? <==> Readable(e)
    ensures EntryConfigs(e).Fail? ==> EntryConfigs(e).error in {ListSize, NoType}
  {
    if Replicas(e) > 1 {
      ReplicaConfigsAre(e.name, e.properties, Replicas(e), Replicas(e));
      ReplicaErrors(e.name, e.properties, Replicas(e), Replicas(e));
    }
  }

  /** Reading the sections succeeds exactly when every entry can be read. */
  lemma {:induction false} ConfigsOkIff(entries: seq<Entry>)
    ensures Configs(entries).Ok? <==> forall e <- entries :: Readable(e)
    ensures Configs(entries).Fail? ==> Configs(entries).error in {ListSize, NoType}
  {
    if entries != [] {
      var init, last := entries[..|entries| - 1], entries[|entries| - 1];
      ConfigsOkIff(init);
      EntryConfigsOkIff(last);
      assert forall e :: e in entries <==> e in init || e == last;
    }
  }

  lemma {:induction false} ReplicaErrors(name: string, p: Properties, n: nat, count: nat)
    requires count <= n
    ensures ReplicaConfigs(name, p, n, count).Fail? ==> ReplicaConfigs(name, p, n, count).error in {ListSize, NoType}
  {
    if count > 0 {
      ReplicaErrors(name, p, n, count - 1);
    }
  }

  function Flat<T>(lists: seq<seq<T>>): seq<T> {
    if lists == [] then [] else Flat(lists[..|lists| - 1]) + lists[|lists| - 1]
  }

  lemma {:induction false} ConfigsAppend(a: seq<Entry>, b: seq<Entry>)
    ensures Configs(a + b) ==
            match Configs(a)
            case Fail(error) => Fail(error)
            case Ok(configs) =>
              match Configs(b)
              case Fail(error) => Fail(error)
              case Ok(more) => Ok(configs + more)
  {
    if b == [] {
      assert a + b == a && Configs(b) == Ok([]);
      assert Configs(a).Ok? ==> Configs(a).value + [] == Configs(a).value;
    } else {
      var init, last := b[..|b| - 1], b[|b| - 1];
      assert (a + b)[..|a + b| - 1] == a + init && (a + b)[|a + b| - 1] == last;
      ConfigsAppend(a, init);
      if Configs(a).Ok? && Configs(init).Ok? && EntryConfigs(last).Ok? {
        var x, y, z := Configs(a).value, Configs(init).value, EntryConfigs(last).value;
        assert x + (y + z) == x + y + z;
      }
    }
  }

  method GetProxelConfigs(section: seq<Entry>) returns (r: Result<seq<Config>>)
    ensures r == Configs(section)
  {
    var configs := [];
    for i := 0 to |section|
      invariant Configs(section[..i]) == Ok(configs)
    {
      var e := section[i];
      assert section[..i + 1][..i] == section[..i];
      assert section == section[..i + 1] + section[i + 1..];
      ConfigsAppend(section[..i + 1], section[i + 1..]);
      assert configs + [] == configs;
      if Enabled(e) {
        var n := Replicas(e);
        if n > 1 {
          var replicas := GetReplicatedConfigs(e.name, n, e.properties);
          if replicas.Fail? {
            return replicas;
          }
          configs := configs + replicas.value;
        } else {
          var config := CreateConfig(e.name, AsMap(e.properties));
          if config.Fail? {
            return Fail(config.error);
          }
          configs := configs + [config.value];
        }
      }
    }
    assert section[..|section|] == section;
    return Ok(configs);
  }

  method GetAllProxelConfigs(sections: seq<seq<Entry>>) returns (r: Result<seq<Config>>)
    ensures r == Configs(Flat(sections))
  {
    var configs := [];
    for i := 0 to |sections|
      invariant Configs(Flat(sections[..i])) == Ok(configs)
    {
      assert sections[..i + 1][..i] == sections[..i];
      ConfigsAppend(Flat(sections[..i]), sections[i]);
      var more := GetProxelConfigs(sections[i]);
      if more.Fail? {
        FlatSplits(sections, i + 1);
        ConfigsAppend(Flat(sections[..i + 1]), Flat(sections[i + 1..]));
        return more;
      }
      configs := configs + more.value;
    }
    assert sections[..|sections|] == sections;
    return Ok(configs);
  }

  lemma {:induction false} FlatAppend<T>(a: seq<seq<T>>, b: seq<seq<T>>)
    ensures Flat(a + b) == Flat(a) + Flat(b)
  {
    if b == [] {
      assert a + b == a;
    } else {
      var init, last := b[..|b| - 1], b[|b| - 1];
      assert (a + b)[..|a + b| - 1] == a + init && (a + b)[|a + b| - 1] == last;
      FlatAppend(a, init);
      assert Flat(a) + (Flat(init) + last) == Flat(a) + Flat(init) + last;
    }
  }

  lemma FlatSplits<T>(lists: seq<seq<T>>, i: nat)
    requires i <= |lists|
    ensures Flat(lists) == Flat(lists[..i]) + Flat(lists[i..])
  {
    assert lists == lists[..i] + lists[i..];
    FlatAppend(lists[..i], lists[i..]);
  }

  // ---------- What an entry of the file stands for ----------

  predicate IsText(v: Option<Value>) {
    v.Some? && v.value.Text?
  }

  lemma OneEntry(e: Entry)
    ensures Configs([e]) == EntryConfigs(e)
  {
    assert [e][..0] == [];
    assert Configs([e][..0]) == Ok([]);
    assert EntryConfigs(e).Ok? ==> [] + EntryConfigs(e).value == EntryConfigs(e).value;
  }

  /** An entry counts unless it says that it does not. */
  lemma DisabledEntry(e: Entry)
    ensures Lookup(e.properties, "enable") == Some(Flag(false)) ==> EntryConfigs(e) == Ok([])
    ensures Lookup(e.properties, "enable") != Some(Flag(false)) && EntryConfigs(e).Ok? ==> EntryConfigs(e).value != []
  {
    if Lookup(e.properties, "enable") != Some(Flag(false)) && Replicas(e) > 1 {
      ReplicaConfigsAre(e.name, e.properties, Replicas(e), Replicas(e));
    }
  }

  /** An entry without replicas is one configuration of its own type, with all its properties. */
  lemma SingleEntry(e: Entry)
    requires Lookup(e.properties, "enable") != Some(Flag(false)) && DistinctKeys(e.properties)
    requires forall r: nat | Lookup(e.properties, "replicate") == Some(Number(r)) :: r <= 1
    ensures EntryConfigs(e).Ok? <==> IsText(Lookup(e.properties, "type"))
    ensures EntryConfigs(e).Fail? ==> EntryConfigs(e) == Fail(NoType)
    ensures EntryConfigs(e).Ok? ==>
              && |EntryConfigs(e).value| == 1
              && var c := EntryConfigs(e).value[0];
              && c.id == e.name && Lookup(e.properties, "type") == Some(Text(c.typ))
              && forall key: string ::
                   Lookup(e.properties, key) == if key in c.properties then Some(c.properties[key]) else None
  {
    forall key: string
      ensures Lookup(e.properties, key) == if key in AsMap(e.properties) then Some(AsMap(e.properties)[key]) else None
    {
      AsMapLooksUp(e.properties, key);
    }
  }

  /** What replica `i` of `n` reads, key by key. */
  ghost predicate ReplicaReads(p: Properties, n: nat, i: nat, m: map<string, Value>)
    requires i < n
  {
    && (forall kv <- p | kv.0 != [] && kv.0[0] == '$' ::
          kv.1.List? && |kv.1.items| == n && kv.0 !in m && kv.0[1..] in m && m[kv.0[1..]] == kv.1.items[i])
    && (forall key: string | (key == [] || key[0] != '$') && Lookup(p, "$" + key) == None ::
          (if key in m then Some(m[key]) else None) == if key == "replicate" then None else Lookup(p, key))
  }

  lemma ReplicaPropertiesRead(p: Properties, n: nat, i: nat)
    requires i < n && !BadList(p, n) && NoClash(p)
    ensures ReplicaReads(p, n, i, ReplicaProperties(p, n, i))
  {
    forall kv | kv in p && kv.0 != [] && kv.0[0] == '$'
      ensures kv.1.List? && |kv.1.items| == n && kv.0 !in ReplicaProperties(p, n, i)
      ensures kv.0[1..] in ReplicaProperties(p, n, i) && ReplicaProperties(p, n, i)[kv.0[1..]] == kv.1.items[i]
    {
      DealtKeyReads(p, n, i, kv);
    }
    forall key: string | (key == [] || key[0] != '$') && Lookup(p, "$" + key) == None
      ensures (if key in ReplicaProperties(p, n, i) then Some(ReplicaProperties(p, n, i)[key]) else None)
              == if key == "replicate" then None else Lookup(p, key)
    {
      OtherKeysKept(p, n, i, key);
    }
  }

  /** What replica `i` has as its type. */
  function TypeOfReplica(p: Properties, i: nat): Option<Value> {
    match Lookup(p, "$type")
    case Some(List(types)) => if i < |types| then Some(types[i]) else None
    case _ => Lookup(p, "type")
  }

  lemma ReplicaType(p: Properties, n: nat, i: nat)
    requires i < n && !BadList(p, n) && NoClash(p)
    ensures var m := ReplicaProperties(p, n, i);
            TypeOfReplica(p, i) == if "type" in m then Some(m["type"]) else None
  {
    ReplicaPropertiesRead(p, n, i);
    var dollar := "$type";
    assert dollar == "$" + "type" && dollar[1..] == "type";
    LookupFinds(p, dollar);
    if Lookup(p, dollar).Some? {
      var kv := (dollar, Lookup(p, dollar).value);
      assert kv in p && kv.0[1..] == "type";
    }
  }

  /** A replicated entry is one configuration per replica, each of its own type and with its own share
      of the lists; it fails exactly if a list has another size or a type is no text. */
  lemma ReplicatedEntry(e: Entry, r: nat)
    requires Lookup(e.properties, "enable") != Some(Flag(false)) && NoClash(e.properties)
    requires Lookup(e.properties, "replicate") == Some(Number(r)) && r > 1
    ensures EntryConfigs(e) == Fail(ListSize) <==>
            exists kv <- e.properties :: kv.0 != [] && kv.0[0] == '$' && !(kv.1.List? && |kv.1.items| == r)
    ensures EntryConfigs(e) != Fail(ListSize) ==>
              (EntryConfigs(e).Ok? <==> forall i | 0 <= i < r :: IsText(TypeOfReplica(e.properties, i)))
    ensures EntryConfigs(e).Ok? ==>
              && |EntryConfigs(e).value| == r
              && forall i | 0 <= i < r ::
                   var c := EntryConfigs(e).value[i];
                   && c.id == ReplicaId(e.name, i) && TypeOfReplica(e.properties, i) == Some(Text(c.typ))
                   && ReplicaReads(e.properties, r, i, c.properties)
  {
    var p := e.properties;
    ReplicaConfigsAre(e.name, p, r, r);
    ReplicaErrors(e.name, p, r, r);
    if !BadList(p, r) {
      OnlyBadListsFailSo(e.name, p, r, r);
      forall i | 0 <= i < r
        ensures CreateConfig(ReplicaId(e.name, i), ReplicaProperties(p, r, i)).Ok? <==> IsText(TypeOfReplica(p, i))
        ensures ReplicaReads(p, r, i, ReplicaProperties(p, r, i))
        ensures TypeOfReplica(p, i) == if "type" in ReplicaProperties(p, r, i) then Some(ReplicaProperties(p, r, i)["type"]) else None
      {
        ReplicaType(p, r, i);
        ReplicaPropertiesRead(p, r, i);
      }
    }
  }

  lemma {:induction false} OnlyBadListsFailSo(name: string, p: Properties, n: nat, count: nat)
    requires count <= n && !BadList(p, n)
    ensures ReplicaConfigs(name, p, n, count) != Fail(ListSize)
  {
    if count > 0 {
      OnlyBadListsFailSo(name, p, n, count - 1);
    }
  }
}

/** Whole runs of pushes and gets on a keyed family of queues: what each get returns, and when it waits. */
module MultiQueueRuns {
  import opened Wrappers
  import opened MultiLockQueue
  import opened MultiQueueGetter

  /** One critical section. */
  datatype Event =
    | Push(key: Key, item: Item)
    | AddQueue(key: Key)
    | RemoveQueue(key: Key)
    | Clear
    | Get
    | Terminate

  /** `throws` and `waits` count the gets that threw and those that had to wait; `batches` are the items
      that each get that returned took out, and `outputs` what it returned; `drops` counts, for every
      key, the items lost to a full queue; `dropsAt` and `pushedAt` keep that count, and the number of
      items pushed, as of each get that returned. */
  datatype System = System(
    queues: Queues,
    terminated: bool,
    last: Batch,
    throws: nat,
    waits: nat,
    batches: seq<Batch>,
    outputs: seq<seq<Item>>,
    pushed: Queues,
    drops: map<Key, nat>,
    dropsAt: seq<map<Key, nat>>,
    pushedAt: seq<map<Key, nat>>)

  function DropsAfter(s: System, capacity: nat, key: Key): map<Key, nat> {
    var n := if key in s.drops then s.drops[key] else 0;
    s.drops[key := if key in s.queues && |s.queues[key]| >= capacity then n + 1 else n]
  }

  ghost function Next(mode: GetMode, capacity: nat, s: System, e: Event): System
    requires capacity >= 1
  {
    match e
    case Push(k, x) =>
      s.(queues := Pushed(s.queues, capacity, k, x),
         pushed := s.pushed[k := (if k in s.pushed then s.pushed[k] else []) + [x]],
         drops := DropsAfter(s, capacity, k))
    case AddQueue(k) => s.(queues := if k in s.queues then s.queues else s.queues[k := []])
    case RemoveQueue(k) => s.(queues := s.queues - {k})
    case Clear => s.(queues := map k | k in s.queues :: [])
    case Terminate => s.(terminated := true)
    case Get =>
      if s.terminated then s.(throws := s.throws + 1)
      else if WouldWait(mode, s.queues, s.last) then s.(waits := s.waits + 1)
      else AfterGet(mode, s)
  }

  ghost function AfterGet(mode: GetMode, s: System): System {
    s.(queues := Rests(s.queues),
       last := LastAfter(mode, s.queues, s.last),
       batches := s.batches + [Heads(s.queues)],
       outputs := s.outputs + [Output(mode, s.queues, s.last)],
       dropsAt := s.dropsAt + [s.drops],
       pushedAt := s.pushedAt + [map k | k in s.pushed :: |s.pushed[k]|])
  }

  ghost function Run(mode: GetMode, capacity: nat, s: System, es: seq<Event>): System
    requires capacity >= 1
  {
    if es == [] then s
    else Next(mode, capacity, Run(mode, capacity, s, es[..|es| - 1]), es[|es| - 1])
  }

  /** Where queues and getter are, and what has been returned so far. */
  ghost predicate InState(q: MultiQueue, getter: Getter, s: System, outputs: seq<seq<Item>>, throws: nat, waits: nat)
    reads q, getter
  {
    && q.queues == s.queues && q.terminated == s.terminated && getter.lastItems == s.last
    && outputs == s.outputs && throws == s.throws && waits == s.waits
  }

  /** One event. */
  method ExecuteOne(q: MultiQueue, getter: Getter, e: Event, ghost s: System,
                    outputs: seq<seq<Item>>, throws: nat, waits: nat)
    returns (outputs': seq<seq<Item>>, throws': nat, waits': nat)
    requires q.maxQueueSize >= 1 && InState(q, getter, s, outputs, throws, waits)
    modifies q`queues, q`terminated, getter`lastItems
    ensures InState(q, getter, Next(getter.mode, q.maxQueueSize, s, e), outputs', throws', waits')
  {
    outputs', throws', waits' := outputs, throws, waits;
    match e
    case Push(key, item) => q.Push(key, item);
    case AddQueue(key) => q.AddQueue(key);
    case RemoveQueue(key) => q.RemoveQueue(key);
    case Clear => q.Clear();
    case Terminate => q.Terminate();
    case Get =>
      var o := getter.Get(q);
      if o.Returns? {
        outputs' := outputs + [o.value];
      } else if o.Throws? {
        throws' := throws + 1;
      } else {
        waits' := waits + 1;
      }
  }

  /** The run as the queues and the getter carry it out: what its gets return, how many throw, and how
      many have to wait. */
  method Execute(q: MultiQueue, getter: Getter, es: seq<Event>, ghost s: System)
    returns (outputs: seq<seq<Item>>, throws: nat, waits: nat)
    requires q.maxQueueSize >= 1 && InState(q, getter, s, [], 0, 0)
    modifies q`queues, q`terminated, getter`lastItems
    ensures InState(q, getter, Run(getter.mode, q.maxQueueSize, s, es), outputs, throws, waits)
    decreases |es|
  {
    if es == [] {
      return [], 0, 0;
    }
    var n := |es| - 1;
    ghost var m := Run(getter.mode, q.maxQueueSize, s, es[..n]);
    outputs, throws, waits := Execute(q, getter, es[..n], s);
    outputs, throws, waits := ExecuteOne(q, getter, es[n], m, outputs, throws, waits);
  }

  function CountGets(es: seq<Event>): nat {
    if es == [] then 0 else CountGets(es[..|es| - 1]) + if es[|es| - 1].Get? then 1 else 0
  }

  /** After `terminate`, whatever else happens, every get throws and takes nothing. */
  lemma {:induction false} TerminatedForGood(mode: GetMode, capacity: nat, s: System, es: seq<Event>)
    requires capacity >= 1 && s.terminated
    ensures var m := Run(mode, capacity, s, es);
            && m.terminated && m.throws == s.throws + CountGets(es)
            && m.waits == s.waits && m.last == s.last && m.batches == s.batches && m.outputs == s.outputs
  {
    if es != [] {
      TerminatedForGood(mode, capacity, s, es[..|es| - 1]);
      NextThrows(mode, capacity, Run(mode, capacity, s, es[..|es| - 1]), es[|es| - 1]);
    }
  }

  lemma NextThrows(mode: GetMode, capacity: nat, s: System, e: Event)
    requires capacity >= 1 && s.terminated
    ensures var n := Next(mode, capacity, s, e);
            && n.terminated && n.throws == s.throws + (if e.Get? then 1 else 0)
            && n.waits == s.waits && n.last == s.last && n.batches == s.batches && n.outputs == s.outputs
  {
  }

  function Fresh(keys: set<Key>): System {
    System(map k | k in keys :: [], false, map[], 0, 0, [], [],
           map k | k in keys :: [], map k | k in keys :: 0, [], [])
  }

  function PushedTo(es: seq<Event>, k: Key): seq<Item> {
    if es == [] then [] else
    PushedTo(es[..|es| - 1], k) +
    match es[|es| - 1]
    case Push(key, item) => if key == k then [item] else []
    case _ => []
  }

  lemma NextPushes(mode: GetMode, capacity: nat, s: System, e: Event, k: Key)
    requires capacity >= 1 && k in s.pushed
    ensures var n := Next(mode, capacity, s, e);
            k in n.pushed && n.pushed[k] == s.pushed[k] +
              match e
              case Push(key, item) => if key == k then [item] else []
              case _ => []
  {
  }

  /** The history of what was pushed is that of the run. */
  lemma {:induction false} PushedIsHistory(mode: GetMode, capacity: nat, keys: set<Key>, es: seq<Event>, k: Key)
    requires capacity >= 1 && k in keys
    ensures var s := Run(mode, capacity, Fresh(keys), es); k in s.pushed && s.pushed[k] == PushedTo(es, k)
  {
    if es != [] {
      PushedIsHistory(mode, capacity, keys, es[..|es| - 1], k);
      NextPushes(mode, capacity, Run(mode, capacity, Fresh(keys), es[..|es| - 1]), es[|es| - 1], k);
    }
  }

  /** Adding, removing and clearing change the queues of that key, or of all, and nothing is returned. */
  lemma QueuesChange(mode: GetMode, capacity: nat, s: System, k: Key)
    requires capacity >= 1
    ensures var n := Next(mode, capacity, s, AddQueue(k));
            n.queues.Keys == s.queues.Keys + {k} && (forall h <- s.queues :: n.queues[h] == s.queues[h])
            && (k !in s.queues ==> n.queues[k] == []) && n.outputs == s.outputs && n.last == s.last
    ensures var n := Next(mode, capacity, s, RemoveQueue(k));
            n.queues.Keys == s.queues.Keys - {k} && (forall h <- n.queues :: n.queues[h] == s.queues[h])
            && n.outputs == s.outputs && n.last == s.last
    ensures var n := Next(mode, capacity, s, Clear);
            n.queues.Keys == s.queues.Keys && (forall h <- n.queues :: n.queues[h] == [])
            && n.outputs == s.outputs && n.last == s.last
  {
  }

  // ---------- What each get takes ----------

  /** How many of the batches have something for `k`. */
  ghost function Taken(batches: seq<Batch>, k: Key): nat {
    if batches == [] then 0
    else Taken(batches[..|batches| - 1], k) + if k in batches[|batches| - 1] then 1 else 0
  }

  lemma TakenOneMore(batches: seq<Batch>, b: Batch, k: Key)
    ensures Taken(batches + [b], k) == Taken(batches, k) + if k in b then 1 else 0
  {
    assert (batches + [b])[..|batches|] == batches;
  }

  ghost predicate SameLengths(s: System) {
    |s.outputs| == |s.batches| == |s.dropsAt| == |s.pushedAt|
  }

  ghost predicate Keeps(s: System, k: Key) {
    && k in s.queues && k in s.pushed && k in s.drops
    && |s.batches| == |s.dropsAt| == |s.pushedAt|
    && forall j | 0 <= j < |s.batches| :: k in s.dropsAt[j] && k in s.pushedAt[j]
  }

  /** The number of items pushed for `k` that have been taken or dropped. */
  ghost function Gone(s: System, k: Key): nat
    requires k in s.drops
  {
    Taken(s.batches, k) + s.drops[k]
  }

  /** The j-th get took the oldest item of `k` that was neither taken nor dropped before, and took
      something exactly if there was such an item. */
  ghost predicate TookOldest(s: System, k: Key, j: nat)
    requires j < |s.batches| && Keeps(s, k)
  {
    var oldest := Taken(s.batches[..j], k) + s.dropsAt[j][k];
    && s.pushedAt[j][k] <= |s.pushed[k]|
    && (k in s.batches[j] <==> oldest < s.pushedAt[j][k])
    && (k in s.batches[j] ==> s.batches[j][k] == s.pushed[k][oldest])
  }

  /** What was pushed for `k` is what the gets took, what was dropped, and what is still there, which is
      no more than there is room for. */
  ghost predicate AlignedFor(capacity: nat, s: System, k: Key) {
    && Keeps(s, k)
    && Gone(s, k) <= |s.pushed[k]| && s.pushed[k][Gone(s, k)..] == s.queues[k] && |s.queues[k]| <= capacity
    && forall j | 0 <= j < |s.batches| :: TookOldest(s, k, j)
  }

  lemma OthersAlign(capacity: nat, s: System, key: Key, x: Item, k: Key)
    requires capacity >= 1 && AlignedFor(capacity, s, k) && key != k
    ensures AlignedFor(capacity, Next(Blocking, capacity, s, Push(key, x)), k)
  {
    var n := Next(Blocking, capacity, s, Push(key, x));
    assert forall j | 0 <= j < |s.batches| :: TookOldest(s, k, j) ==> TookOldest(n, k, j);
  }

  lemma PushAligns(mode: GetMode, capacity: nat, s: System, key: Key, x: Item)
    requires capacity >= 1 && AlignedFor(capacity, s, key)
    ensures AlignedFor(capacity, Next(mode, capacity, s, Push(key, x)), key)
  {
    var n := Next(mode, capacity, s, Push(key, x));
    var gone, after := Gone(s, key), s.pushed[key] + [x];
    assert after[gone..] == s.queues[key] + [x];
    if |s.queues[key]| >= capacity {
      assert after[gone + 1..] == after[gone..][1..] == s.queues[key][1..] + [x];
    }
    assert forall j | 0 <= j < |s.batches| :: TookOldest(s, key, j) ==> TookOldest(n, key, j);
  }

  lemma EarlierStays(s: System, n: System, k: Key, j: nat)
    requires j < |s.batches| && Keeps(s, k) && Keeps(n, k) && TookOldest(s, k, j)
    requires s.batches <= n.batches && s.dropsAt <= n.dropsAt && s.pushedAt <= n.pushedAt && n.pushed == s.pushed
    ensures j < |n.batches| && TookOldest(n, k, j)
  {
    assert n.batches[..j] == s.batches[..j];
  }

  lemma GetTakesOldest(s: System, mode: GetMode, capacity: nat, k: Key)
    requires AlignedFor(capacity, s, k)
    ensures Keeps(AfterGet(mode, s), k) && TookOldest(AfterGet(mode, s), k, |s.batches|)
  {
    var n := AfterGet(mode, s);
    assert n.batches[..|s.batches|] == s.batches;
    var gone := Gone(s, k);
    if gone < |s.pushed[k]| {
      assert s.pushed[k][gone..][0] == s.pushed[k][gone];
    }
  }

  lemma GetAligns(mode: GetMode, capacity: nat, s: System, k: Key)
    requires AlignedFor(capacity, s, k)
    ensures AlignedFor(capacity, AfterGet(mode, s), k)
  {
    var n := AfterGet(mode, s);
    var gone := Gone(s, k);
    GetTakesOldest(s, mode, capacity, k);
    TakenOneMore(s.batches, Heads(s.queues), k);
    if gone < |s.pushed[k]| {
      assert s.pushed[k][gone..][1..] == s.pushed[k][gone + 1..];
    }
    forall j | 0 <= j < |n.batches| ensures TookOldest(n, k, j) {
      if j < |s.batches| {
        EarlierStays(s, n, k, j);
      }
    }
  }

  ghost predicate Aligned(capacity: nat, keys: set<Key>, s: System) {
    && SameLengths(s) && OnlyKeys(keys, s)
    && forall k <- keys :: AlignedFor(capacity, s, k)
  }

  predicate UsesKeys(keys: set<Key>, e: Event) {
    e.Get? || e.Terminate? || (e.Push? && e.key in keys)
  }

  lemma SameAligned(capacity: nat, s: System, n: System, k: Key)
    requires AlignedFor(capacity, s, k)
    requires n.queues == s.queues && n.batches == s.batches && n.pushed == s.pushed && n.drops == s.drops
             && n.dropsAt == s.dropsAt && n.pushedAt == s.pushedAt
    ensures AlignedFor(capacity, n, k)
  {
    forall j | 0 <= j < |n.batches| ensures TookOldest(n, k, j) {
      assert TookOldest(s, k, j);
    }
  }

  lemma NextAligns(mode: GetMode, capacity: nat, keys: set<Key>, s: System, e: Event, k: Key)
    requires capacity >= 1 && AlignedFor(capacity, s, k) && UsesKeys(keys, e)
    ensures AlignedFor(capacity, Next(mode, capacity, s, e), k)
  {
    if e.Push? {
      if e.key == k {
        PushAligns(mode, capacity, s, k, e.item);
      } else {
        OthersAlign(capacity, s, e.key, e.item, k);
      }
    } else if e.Get? && !s.terminated && !WouldWait(mode, s.queues, s.last) {
      GetAligns(mode, capacity, s, k);
    } else {
      SameAligned(capacity, s, Next(mode, capacity, s, e), k);
    }
  }

  ghost predicate OnlyKeys(keys: set<Key>, s: System) {
    s.queues.Keys == keys && forall j | 0 <= j < |s.batches| :: s.batches[j].Keys <= keys
  }

  lemma GetKeepsKeys(mode: GetMode, keys: set<Key>, s: System)
    requires SameLengths(s) && OnlyKeys(keys, s)
    ensures SameLengths(AfterGet(mode, s)) && OnlyKeys(keys, AfterGet(mode, s))
  {
    assert Heads(s.queues).Keys <= keys;
  }

  lemma NextKeepsKeys(mode: GetMode, capacity: nat, keys: set<Key>, s: System, e: Event)
    requires capacity >= 1 && UsesKeys(keys, e) && SameLengths(s) && OnlyKeys(keys, s)
    ensures SameLengths(Next(mode, capacity, s, e)) && OnlyKeys(keys, Next(mode, capacity, s, e))
  {
    if e.Get? {
      GetKeepsKeys(mode, keys, s);
    }
  }

  /** In every mode and every interleaving of pushes and gets. */
  lemma {:induction false} EveryRunAligns(mode: GetMode, capacity: nat, keys: set<Key>, es: seq<Event>)
    requires capacity >= 1 && forall e <- es :: UsesKeys(keys, e)
    ensures Aligned(capacity, keys, Run(mode, capacity, Fresh(keys), es))
  {
    if es != [] {
      var s, e := Run(mode, capacity, Fresh(keys), es[..|es| - 1]), es[|es| - 1];
      EveryRunAligns(mode, capacity, keys, es[..|es| - 1]);
      NextKeepsKeys(mode, capacity, keys, s, e);
      forall k | k in keys ensures AlignedFor(capacity, Next(mode, capacity, s, e), k) {
        NextAligns(mode, capacity, keys, s, e, k);
      }
    }
  }

  // ---------- Blocking and ready-only: what each get returns ----------

  /** The outputs are the batches, in key order. */
  ghost predicate OutputsAreBatches(s: System) {
    |s.outputs| == |s.batches| && forall j | 0 <= j < |s.batches| :: s.outputs[j] == Values(s.batches[j])
  }

  lemma {:induction false} EveryRunReturnsBatches(mode: GetMode, capacity: nat, keys: set<Key>, es: seq<Event>)
    requires capacity >= 1 && (mode.Blocking? || mode.ReadyOnly?)
    ensures OutputsAreBatches(Run(mode, capacity, Fresh(keys), es))
  {
    if es != [] {
      EveryRunReturnsBatches(mode, capacity, keys, es[..|es| - 1]);
      NextReturnsBatch(mode, capacity, Run(mode, capacity, Fresh(keys), es[..|es| - 1]), es[|es| - 1]);
    }
  }

  lemma GetReturnsBatch(mode: GetMode, s: System)
    requires (mode.Blocking? || mode.ReadyOnly?) && OutputsAreBatches(s)
    ensures OutputsAreBatches(AfterGet(mode, s))
  {
    assert Output(mode, s.queues, s.last) == Values(Heads(s.queues));
  }

  lemma NextReturnsBatch(mode: GetMode, capacity: nat, s: System, e: Event)
    requires capacity >= 1 && (mode.Blocking? || mode.ReadyOnly?) && OutputsAreBatches(s)
    ensures OutputsAreBatches(Next(mode, capacity, s, e))
  {
    if e.Get? {
      GetReturnsBatch(mode, s);
    }
  }

  /** A blocking get takes something for every key. */
  lemma {:induction false} EveryRunTakesAll(capacity: nat, keys: set<Key>, es: seq<Event>)
    requires capacity >= 1 && forall e <- es :: UsesKeys(keys, e)
    ensures var s := Run(Blocking, capacity, Fresh(keys), es);
            s.queues.Keys == keys && forall j | 0 <= j < |s.batches| :: s.batches[j].Keys == keys
  {
    if es != [] {
      var s, e := Run(Blocking, capacity, Fresh(keys), es[..|es| - 1]), es[|es| - 1];
      EveryRunTakesAll(capacity, keys, es[..|es| - 1]);
      NextTakesAll(capacity, keys, s, e);
    }
  }

  lemma NextTakesAll(capacity: nat, keys: set<Key>, s: System, e: Event)
    requires capacity >= 1 && UsesKeys(keys, e) && s.queues.Keys == keys
    requires forall j | 0 <= j < |s.batches| :: s.batches[j].Keys == keys
    ensures var n := Next(Blocking, capacity, s, e);
            n.queues.Keys == keys && forall j | 0 <= j < |n.batches| :: n.batches[j].Keys == keys
  {
    if e.Get? && HasAll(s.queues) {
      assert Heads(s.queues).Keys == keys;
    }
  }

  lemma {:induction false} AlwaysTaken(batches: seq<Batch>, k: Key)
    requires forall j | 0 <= j < |batches| :: k in batches[j]
    ensures Taken(batches, k) == |batches|
  {
    if batches != [] {
      AlwaysTaken(batches[..|batches| - 1], k);
    }
  }

  /** What the j-th blocking get took for one key. */
  lemma BlockingReturned(capacity: nat, keys: set<Key>, es: seq<Event>, j: nat, k: Key)
    requires capacity >= 1 && (forall e <- es :: UsesKeys(keys, e)) && k in keys
    requires j < |Run(Blocking, capacity, Fresh(keys), es).outputs|
    ensures var s := Run(Blocking, capacity, Fresh(keys), es);
            && j < |s.batches| == |s.dropsAt| && k in s.dropsAt[j] && k in s.pushed
            && j + s.dropsAt[j][k] < |s.pushed[k]|
            && s.outputs[j] == Values(s.batches[j]) && s.batches[j].Keys == keys
            && s.batches[j][k] == s.pushed[k][j + s.dropsAt[j][k]]
  {
    var s := Run(Blocking, capacity, Fresh(keys), es);
    EveryRunAligns(Blocking, capacity, keys, es);
    EveryRunReturnsBatches(Blocking, capacity, keys, es);
    EveryRunTakesAll(capacity, keys, es);
    assert AlignedFor(capacity, s, k);
    BlockingTook(capacity, keys, s, j, k);
  }

  /** Whatever the interleaving of pushes and gets: the j-th get returns, in key order, for every key
      the item pushed for it after as many others as gets and overflows came before. So it is the
      j-th pushed exactly where nothing was dropped before. */
  lemma BarrierAligned(capacity: nat, keys: set<Key>, es: seq<Event>, j: nat, i: nat)
    requires capacity >= 1 && forall e <- es :: UsesKeys(keys, e)
    requires j < |Run(Blocking, capacity, Fresh(keys), es).outputs| && i < |keys|
    ensures var s := Run(Blocking, capacity, Fresh(keys), es);
            var k := Ordered(keys)[i];
            && |s.outputs[j]| == |keys| && j < |s.dropsAt| && k in s.dropsAt[j] && k in s.pushed
            && j + s.dropsAt[j][k] < |s.pushed[k]|
            && s.outputs[j][i] == s.pushed[k][j + s.dropsAt[j][k]]
  {
    OrderedIn(keys, i);
    BlockingReturned(capacity, keys, es, j, Ordered(keys)[i]);
    ValuesAt(Run(Blocking, capacity, Fresh(keys), es).batches[j], i);
  }

  lemma BlockingTook(capacity: nat, keys: set<Key>, s: System, j: nat, k: Key)
    requires AlignedFor(capacity, s, k) && j < |s.batches|
    requires k in keys && forall i | 0 <= i < |s.batches| :: s.batches[i].Keys == keys
    ensures k in s.batches[j]
    ensures j + s.dropsAt[j][k] < |s.pushed[k]| && s.batches[j][k] == s.pushed[k][j + s.dropsAt[j][k]]
  {
    AlwaysTaken(s.batches[..j], k);
    assert TookOldest(s, k, j);
  }

  /** Whatever the interleaving: the j-th ready-only get returns, in key order, the oldest unread item of
      every key that has one, and nothing for the others. */
  lemma ReadyOnlyTakesOldest(capacity: nat, keys: set<Key>, es: seq<Event>, j: nat, k: Key)
    requires capacity >= 1 && (forall e <- es :: UsesKeys(keys, e)) && k in keys
    requires j < |Run(ReadyOnly, capacity, Fresh(keys), es).outputs|
    ensures var s := Run(ReadyOnly, capacity, Fresh(keys), es);
            && SameLengths(s) && s.outputs[j] == Values(s.batches[j]) && s.batches[j].Keys <= keys
            && Keeps(s, k) && TookOldest(s, k, j)
  {
    EveryRunAligns(ReadyOnly, capacity, keys, es);
    EveryRunReturnsBatches(ReadyOnly, capacity, keys, es);
  }

  // ---------- When a get waits ----------

  ghost predicate Ends(mode: GetMode, s: System, es: seq<Event>) {
    && |s.outputs| + s.waits + s.throws == CountGets(es)
    && (s.terminated <==> Terminate in es) && (Terminate !in es ==> s.throws == 0)
    && (mode.ReadyOnly? ==> s.waits == 0)
  }

  lemma NextEnds(mode: GetMode, capacity: nat, s: System, e: Event)
    requires capacity >= 1
    ensures var n := Next(mode, capacity, s, e);
            && |n.outputs| + n.waits + n.throws == |s.outputs| + s.waits + s.throws + (if e.Get? then 1 else 0)
            && n.terminated == (s.terminated || e.Terminate?)
            && (!s.terminated ==> n.throws == s.throws) && (mode.ReadyOnly? ==> n.waits == s.waits)
  {
  }

  /** Every get of a run returns, waits or throws; it throws only after `terminate`, and a ready-only get
      never waits. */
  lemma {:induction false} GetsEnd(mode: GetMode, capacity: nat, keys: set<Key>, es: seq<Event>)
    requires capacity >= 1
    ensures Ends(mode, Run(mode, capacity, Fresh(keys), es), es)
  {
    if es != [] {
      GetsEnd(mode, capacity, keys, es[..|es| - 1]);
      NextEnds(mode, capacity, Run(mode, capacity, Fresh(keys), es[..|es| - 1]), es[|es| - 1]);
      assert es == es[..|es| - 1] + [es[|es| - 1]];
    }
  }

  /** Some item pushed for `k` has been neither taken nor dropped. */
  ghost predicate Unread(s: System, k: Key)
    requires k in s.drops && k in s.pushed
  {
    Gone(s, k) < |s.pushed[k]|
  }

  /** No get has taken anything yet. */
  ghost predicate NothingYet(s: System) {
    forall b <- s.batches :: b == map[]
  }

  lemma UnreadIsQueued(capacity: nat, keys: set<Key>, s: System)
    requires Aligned(capacity, keys, s)
    ensures forall k <- keys :: k in s.drops && k in s.pushed
    ensures HasAll(s.queues) <==> forall k <- keys :: Unread(s, k)
    ensures HasAny(s.queues) <==> exists k <- keys :: Unread(s, k)
  {
    forall k | k in keys ensures k in s.drops && k in s.pushed && (Unread(s, k) <==> s.queues[k] != []) {
      assert AlignedFor(capacity, s, k);
    }
  }

  lemma GetWaits(mode: GetMode, capacity: nat, s: System)
    requires capacity >= 1 && !s.terminated
    ensures Next(mode, capacity, s, Get).waits == s.waits + 1 <==> WouldWait(mode, s.queues, s.last)
    ensures Next(mode, capacity, s, Get).waits == s.waits + 1 || Next(mode, capacity, s, Get) == AfterGet(mode, s)
  {
  }

  /** When the next get has to wait, from what was pushed, taken and dropped. */
  lemma GetWaitsIff(mode: GetMode, capacity: nat, keys: set<Key>, s: System)
    requires capacity >= 1 && Aligned(capacity, keys, s) && !s.terminated
    requires mode.Latched? || mode.AtLeastOneNew? ==> s.last == Latest(s.batches)
    ensures forall k <- keys :: k in s.drops && k in s.pushed
    ensures var waits := Next(mode, capacity, s, Get).waits == s.waits + 1;
            match mode
            case Blocking => waits <==> exists k <- keys :: !Unread(s, k)
            case ReadyOnly => !waits
            case Latched => waits <==> NothingYet(s) && exists k <- keys :: !Unread(s, k)
            case AtLeastOneNew =>
              waits <==> if NothingYet(s) then exists k <- keys :: !Unread(s, k) else forall k <- keys :: !Unread(s, k)
    ensures Next(mode, capacity, s, Get).waits == s.waits + 1 || Next(mode, capacity, s, Get) == AfterGet(mode, s)
  {
    UnreadIsQueued(capacity, keys, s);
    NothingIsLatest(s.batches);
    GetWaits(mode, capacity, s);
  }

  lemma {:induction false} NothingIsLatest(batches: seq<Batch>)
    ensures Latest(batches) == map[] <==> forall b <- batches :: b == map[]
  {
    if batches != [] {
      var init, last := batches[..|batches| - 1], batches[|batches| - 1];
      NothingIsLatest(init);
      EmptySum(Latest(init), last);
      assert batches == init + [last] && Latest(batches) == Latest(init) + last;
      assert last in batches && forall b <- init :: b in batches;
    }
  }

  lemma EmptySum(a: Batch, b: Batch)
    ensures a + b == map[] <==> a == map[] && b == map[]
  {
    assert (a + b).Keys == a.Keys + b.Keys;
    assert a == map[] <==> a.Keys == {};
    assert b == map[] <==> b.Keys == {};
  }

  // ---------- Latched and at-least-one-new: the last value of every key ----------

  ghost function Latest(batches: seq<Batch>): Batch {
    if batches == [] then map[] else Latest(batches[..|batches| - 1]) + batches[|batches| - 1]
  }

  /** The i-th batch is the last one to deliver `k`. */
  ghost predicate DeliveredLast(batches: seq<Batch>, k: Key, i: nat) {
    i < |batches| && k in batches[i] && forall j | i < j < |batches| :: k !in batches[j]
  }

  lemma DeliveredLastBefore(batches: seq<Batch>, k: Key, i: nat)
    requires batches != [] && k !in batches[|batches| - 1]
    requires DeliveredLast(batches[..|batches| - 1], k, i)
    ensures DeliveredLast(batches, k, i) && batches[i] == batches[..|batches| - 1][i]
  {
    assert forall j | 0 <= j < |batches| - 1 :: batches[j] == batches[..|batches| - 1][j];
  }

  lemma {:induction false} NeverDelivered(batches: seq<Batch>, k: Key)
    requires k !in Latest(batches)
    ensures forall i | 0 <= i < |batches| :: k !in batches[i]
  {
    if batches != [] {
      var init := batches[..|batches| - 1];
      NeverDelivered(init, k);
      assert forall i | 0 <= i < |init| :: init[i] == batches[i];
    }
  }

  /** Every key ever delivered, with the item delivered last. */
  lemma {:induction false} LatestIsLast(batches: seq<Batch>, k: Key)
    ensures k in Latest(batches) <==> exists i: nat :: i < |batches| && k in batches[i]
    ensures k in Latest(batches) ==>
              exists i: nat :: DeliveredLast(batches, k, i) && Latest(batches)[k] == batches[i][k]
  {
    if k !in Latest(batches) {
      NeverDelivered(batches, k);
    } else if k in batches[|batches| - 1] {
      assert DeliveredLast(batches, k, |batches| - 1);
    } else {
      var init := batches[..|batches| - 1];
      LatestIsLast(init, k);
      var i: nat :| DeliveredLast(init, k, i) && Latest(init)[k] == init[i][k];
      DeliveredLastBefore(batches, k, i);
    }
  }

  ghost predicate Remembered(mode: GetMode, s: System) {
    && s.last == Latest(s.batches)
    && OutputsAreLatest(s.batches, s.outputs)
    && (mode.AtLeastOneNew? ==> AlwaysSomethingNew(s.batches))
  }

  lemma NextRemembers(mode: GetMode, capacity: nat, s: System, e: Event)
    requires capacity >= 1 && mode.Remembers() && Remembered(mode, s)
    ensures Remembered(mode, Next(mode, capacity, s, e))
    ensures s.last.Keys <= Next(mode, capacity, s, e).last.Keys
  {
    if e.Get? && !s.terminated && !WouldWait(mode, s.queues, s.last) {
      GetRemembers(mode, capacity, s);
    }
  }

  lemma LatestAndOneMore(batches: seq<Batch>, b: Batch)
    ensures Latest(batches + [b]) == Latest(batches) + b
  {
    assert (batches + [b])[..|batches|] == batches;
  }

  ghost predicate OutputsAreLatest(batches: seq<Batch>, outputs: seq<seq<Item>>) {
    |outputs| == |batches| && forall j | 0 <= j < |outputs| :: outputs[j] == Values(Latest(batches[..j + 1]))
  }

  /** One more batch and its output. */
  lemma OutputsRemember(batches: seq<Batch>, outputs: seq<seq<Item>>, b: Batch)
    requires OutputsAreLatest(batches, outputs)
    ensures OutputsAreLatest(batches + [b], outputs + [Values(Latest(batches) + b)])
  {
    var m, all := |batches|, batches + [b];
    LatestAndOneMore(batches, b);
    forall j | 0 <= j <= m ensures (outputs + [Values(Latest(batches) + b)])[j] == Values(Latest(all[..j + 1])) {
      if j < m {
        assert all[..j + 1] == batches[..j + 1];
      } else {
        assert all[..j + 1] == all;
      }
    }
  }

  ghost predicate AlwaysSomethingNew(batches: seq<Batch>) {
    forall j | 0 <= j < |batches| :: Latest(batches[..j]) != map[] ==> batches[j] != map[]
  }

  lemma SomethingNew(batches: seq<Batch>, b: Batch)
    requires AlwaysSomethingNew(batches) && (Latest(batches) != map[] ==> b != map[])
    ensures AlwaysSomethingNew(batches + [b])
  {
    assert (batches + [b])[..|batches|] == batches;
    assert forall j | 0 <= j < |batches| :: (batches + [b])[..j] == batches[..j];
  }

  lemma GetRemembers(mode: GetMode, capacity: nat, s: System)
    requires capacity >= 1 && mode.Remembers() && Remembered(mode, s)
    requires !s.terminated && !WouldWait(mode, s.queues, s.last)
    ensures Remembered(mode, Next(mode, capacity, s, Get))
  {
    OutputsRemember(s.batches, s.outputs, Heads(s.queues));
    LatestAndOneMore(s.batches, Heads(s.queues));
    if mode.AtLeastOneNew? {
      SomeHead(s.queues);
      SomethingNew(s.batches, Heads(s.queues));
    }
  }

  lemma SomeHead(q: Queues)
    ensures HasAny(q) ==> Heads(q) != map[]
  {
    if HasAny(q) {
      var k :| k in q && q[k] != [];
      assert k in Heads(q);
    }
  }

  /** In every run of pushes, gets, clears and changes of the key set. */
  lemma {:induction false} EveryRunRemembers(mode: GetMode, capacity: nat, keys: set<Key>, es: seq<Event>)
    requires capacity >= 1 && (mode.Latched? || mode.AtLeastOneNew?)
    ensures Remembered(mode, Run(mode, capacity, Fresh(keys), es))
  {
    if es != [] {
      EveryRunRemembers(mode, capacity, keys, es[..|es| - 1]);
      NextRemembers(mode, capacity, Run(mode, capacity, Fresh(keys), es[..|es| - 1]), es[|es| - 1]);
    }
  }

  /** A latched getter that has returned something never waits again. */
  lemma {:induction false} LatchedNeverWaitsAgain(capacity: nat, s: System, es: seq<Event>)
    requires capacity >= 1 && Remembered(Latched, s) && s.last != map[]
    ensures Remembered(Latched, Run(Latched, capacity, s, es))
    ensures s.last.Keys <= Run(Latched, capacity, s, es).last.Keys
    ensures var m := Run(Latched, capacity, s, es); !WouldWait(Latched, m.queues, m.last)
  {
    if es != [] {
      LatchedNeverWaitsAgain(capacity, s, es[..|es| - 1]);
      NextRemembers(Latched, capacity, Run(Latched, capacity, s, es[..|es| - 1]), es[|es| - 1]);
    }
    assert s.last.Keys != {};
  }
}

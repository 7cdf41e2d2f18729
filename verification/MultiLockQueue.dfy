/** A keyed family of bounded queues, and the four ways of getting from all of them at once. */
module MultiLockQueue {
  import opened Wrappers

  type Key = nat  // ports, in the order of the map that holds their queues
  type Item = int
  type Queues = map<Key, seq<Item>>

  // ---------- Keys in map order ----------

  ghost predicate Ascending(keys: seq<Key>) {
    forall i, j :: 0 <= i < j < |keys| ==> keys[i] < keys[j]
  }

  ghost predicate Lists(keys: seq<Key>, of: set<Key>) {
    Ascending(keys) && forall k :: k in keys <==> k in of
  }

  lemma LeastExists(keys: set<Key>) returns (least: Key)
    requires keys != {}
    ensures least in keys && forall k <- keys :: least <= k
  {
    var some :| some in keys;
    var rest := keys - {some};
    assert forall k <- keys :: k == some || k in rest;
    if rest == {} {
      least := some;
    } else {
      var r := LeastExists(rest);
      least := if r < some then r else some;
    }
  }

  lemma EmptyListing(a: seq<Key>, of: set<Key>)
    requires Lists(a, of)
    ensures a == [] <==> of == {}
  {
    if a != [] {
      assert a[0] in a;
    }
  }

  lemma LastIsGreatest(a: seq<Key>, of: set<Key>)
    requires Lists(a, of) && a != []
    ensures a[|a| - 1] in of && forall k <- of :: k <= a[|a| - 1]
  {
    assert a[|a| - 1] in a;
    forall k | k in of ensures k <= a[|a| - 1] {
      assert k in a;
    }
  }

  /** There is only one way to list a set in ascending order. */
  lemma {:induction false} OneListing(a: seq<Key>, b: seq<Key>, of: set<Key>)
    requires Lists(a, of) && Lists(b, of)
    ensures a == b
  {
    EmptyListing(a, of);
    EmptyListing(b, of);
    if a != [] {
      LastIsGreatest(a, of);
      LastIsGreatest(b, of);
      var x := a[|a| - 1];
      ListingInit(a, of);
      ListingInit(b, of);
      OneListing(a[..|a| - 1], b[..|b| - 1], of - {x});
      assert a == a[..|a| - 1] + [x] && b == b[..|b| - 1] + [x];
    }
  }

  lemma ListingInit(a: seq<Key>, of: set<Key>)
    requires Lists(a, of) && a != []
    ensures Lists(a[..|a| - 1], of - {a[|a| - 1]})
  {
    var init := a[..|a| - 1];
    assert a == init + [a[|a| - 1]];
    assert forall i | 0 <= i < |init| :: init[i] == a[i];
  }

  lemma ListingMore(a: seq<Key>, of: set<Key>, k: Key)
    requires Lists(a, of) && forall x <- of :: x < k
    ensures Lists(a + [k], of + {k})
  {
    forall i | 0 <= i < |a| ensures a[i] < k {
      assert a[i] in a;
    }
  }

  lemma ListingFromLeast(least: Key, a: seq<Key>, of: set<Key>)
    requires Lists(a, of) && forall x <- of :: least < x
    ensures Lists([least] + a, of + {least})
  {
    forall i | 0 <= i < |a| ensures least < a[i] {
      assert a[i] in a;
    }
  }

  ghost function LeastOf(keys: set<Key>): (least: Key)
    requires keys != {}
    ensures least in keys && forall k <- keys :: least <= k
  {
    LeastExistsFor(keys);
    var least :| least in keys && forall k <- keys :: least <= k;
    least
  }

  ghost function Ordered(keys: set<Key>): (r: seq<Key>)
    ensures Lists(r, keys) && |r| == |keys|
  {
    if keys == {} then [] else
    var least, rest := LeastOf(keys), keys - {LeastOf(keys)};
    ListingFromLeast(least, Ordered(rest), rest);
    assert rest + {least} == keys;
    [least] + Ordered(rest)
  }

  lemma LeastExistsFor(keys: set<Key>)
    requires keys != {}
    ensures exists least :: least in keys && forall k <- keys :: least <= k
  {
    var _ := LeastExists(keys);
  }

  method Least(keys: set<Key>) returns (least: Key)
    requires keys != {}
    ensures least in keys && forall k <- keys :: least <= k
  {
    LeastExistsFor(keys);
    least :| least in keys && forall k <- keys :: least <= k;
  }

  /** The values of a map, in key order. */
  ghost function Values(m: map<Key, Item>): seq<Item> {
    seq(|m.Keys|, i requires 0 <= i < |m.Keys| => m[Ordered(m.Keys)[i]])
  }

  lemma OrderedIn(keys: set<Key>, i: nat)
    requires i < |keys|
    ensures i < |Ordered(keys)| && Ordered(keys)[i] in keys
  {
    var all := Ordered(keys);
    assert all[i] in all;
  }

  lemma ValuesAt(m: map<Key, Item>, i: nat)
    requires i < |m.Keys|
    ensures |Values(m)| == |m.Keys| && i < |Ordered(m.Keys)| && Ordered(m.Keys)[i] in m
    ensures Values(m)[i] == m[Ordered(m.Keys)[i]]
  {
    OrderedIn(m.Keys, i);
  }

  lemma ListedValues(m: map<Key, Item>, keys: seq<Key>, values: seq<Item>)
    requires Lists(keys, m.Keys) && |values| == |keys|
    requires forall i | 0 <= i < |keys| :: keys[i] in m && values[i] == m[keys[i]]
    ensures values == Values(m)
  {
    OneListing(keys, Ordered(m.Keys), m.Keys);
  }

  // ---------- The queues ----------

  predicate HasAny(q: Queues) {
    exists k <- q :: q[k] != []
  }

  predicate HasAll(q: Queues) {
    forall k <- q :: q[k] != []
  }

  /** The first item of every queue that has one. */
  function Heads(q: Queues): map<Key, Item> {
    map k | k in q && q[k] != [] :: q[k][0]
  }

  function Rests(q: Queues): Queues {
    map k | k in q :: if q[k] == [] then [] else q[k][1..]
  }

  /** As far as one gets before looking at the keys of `todo`. */
  ghost function HeadsBut(q: Queues, todo: set<Key>): map<Key, Item> {
    map k | k in q && k !in todo && q[k] != [] :: q[k][0]
  }

  ghost function RestsBut(q: Queues, todo: set<Key>): Queues {
    map k | k in q :: if k in todo || q[k] == [] then q[k] else q[k][1..]
  }

  lemma TakeOne(q: Queues, todo: set<Key>, key: Key)
    requires key in q && key in todo
    ensures RestsBut(q, todo)[key] == q[key]
    ensures RestsBut(q, todo - {key}) ==
            if q[key] == [] then RestsBut(q, todo) else RestsBut(q, todo)[key := q[key][1..]]
    ensures HeadsBut(q, todo - {key}) ==
            if q[key] == [] then HeadsBut(q, todo) else HeadsBut(q, todo)[key := q[key][0]]
  {
  }

  /** The push does not take from an empty queue, which is undefined. Without any room it would, as
      queues begin empty and only pushes fill them. */
  predicate Pushable(q: Queues, capacity: nat, key: Key) {
    capacity >= 1 || (key in q && q[key] != [])
  }

  /** A push onto a full queue drops its oldest item; a push to an unknown key adds the queue. */
  function Pushed(q: Queues, capacity: nat, key: Key, item: Item): Queues
    requires Pushable(q, capacity, key)
  {
    var queue := if key in q then q[key] else [];
    q[key := (if |queue| >= capacity then queue[1..] else queue) + [item]]
  }

  /** The last `n` items, or all if there are fewer. */
  function Newest(items: seq<Item>, n: nat): seq<Item> {
    if |items| <= n then items else items[|items| - n..]
  }

  /** A push leaves the newest items, as many as there is room for, and other keys alone. */
  lemma PushKeepsNewest(q: Queues, capacity: nat, key: Key, item: Item)
    requires capacity >= 1 && (key in q ==> |q[key]| <= capacity)
    ensures var n := Pushed(q, capacity, key, item);
            && n.Keys == q.Keys + {key}
            && n[key] == Newest((if key in q then q[key] else []) + [item], capacity)
            && forall k <- q | k != key :: n[k] == q[k]
  {
  }

  /** A call that its thread makes alone: it waits when the condition it waits for does not hold. */
  class MultiQueue {
    const maxQueueSize: nat
    var queues: Queues
    var terminated: bool

    constructor (maxQueueSize: nat, keys: seq<Key>)
      ensures this.maxQueueSize == maxQueueSize && !terminated
      ensures queues == map k | k in keys :: []
    {
      this.maxQueueSize := maxQueueSize;
      this.terminated := false;
      var qs: Queues := map[];
      for i := 0 to |keys|
        invariant qs == map k | k in keys[..i] :: []
      {
        qs := qs[keys[i] := []];
      }
      assert keys[..|keys|] == keys;
      this.queues := qs;
    }

    method Push(key: Key, item: Item)
      requires Pushable(queues, maxQueueSize, key)
      modifies this`queues
      ensures queues == Pushed(old(queues), maxQueueSize, key, item)
    {
      if key !in queues {
        queues := queues[key := []];
      }
      if |queues[key]| >= maxQueueSize {
        queues := queues[key := queues[key][1..]];
      }
      queues := queues[key := queues[key] + [item]];
    }

    method Terminate()
      modifies this`terminated
      ensures terminated
    {
      terminated := true;
    }

    method TestAny() returns (any: bool)
      ensures any == HasAny(queues)
    {
      var todo := queues.Keys;
      while todo != {}
        invariant todo <= queues.Keys
        invariant forall k <- queues :: k in todo || queues[k] == []
      {
        var key := Least(todo);
        todo := todo - {key};
        if queues[key] != [] {
          return true;
        }
      }
      return false;
    }

    method TestAll() returns (all: bool)
      ensures all == HasAll(queues)
    {
      var todo := queues.Keys;
      while todo != {}
        invariant todo <= queues.Keys
        invariant forall k <- queues :: k in todo || queues[k] != []
      {
        var key := Least(todo);
        todo := todo - {key};
        if queues[key] == [] {
          return false;
        }
      }
      return true;
    }

    /** `popReady` under the lock: one item from every queue that has one. */
    method TakeReady() returns (items: map<Key, Item>)
      modifies this`queues
      ensures items == Heads(old(queues)) && queues == Rests(old(queues))
    {
      items := map[];
      var todo := queues.Keys;
      while todo != {}
        invariant todo <= old(queues).Keys
        invariant queues == RestsBut(old(queues), todo) && items == HeadsBut(old(queues), todo)
      {
        var key := Least(todo);
        TakeOne(old(queues), todo, key);
        todo := todo - {key};
        if queues[key] != [] {
          items := items[key := queues[key][0]];
          queues := queues[key := queues[key][1..]];
        }
      }
    }

    method PopReady() returns (o: Outcome<map<Key, Item>>)
      modifies this`queues
      ensures o == if terminated then Throws else Returns(Heads(old(queues)))
      ensures queues == if o.Returns? then Rests(old(queues)) else old(queues)
    {
      if terminated {
        return Throws;
      }
      var items := TakeReady();
      return Returns(items);
    }

    method PopAll() returns (o: Outcome<map<Key, Item>>)
      modifies this`queues
      ensures o == if terminated then Throws else if HasAll(old(queues)) then Returns(Heads(old(queues))) else Waits
      ensures queues == if o.Returns? then Rests(old(queues)) else old(queues)
    {
      var all := TestAll();
      if terminated {
        return Throws;
      }
      if !all {
        return Waits;
      }
      var items := TakeReady();
      return Returns(items);
    }

    method PopAtLeastOne() returns (o: Outcome<map<Key, Item>>)
      modifies this`queues
      ensures o == if terminated then Throws else if HasAny(old(queues)) then Returns(Heads(old(queues))) else Waits
      ensures queues == if o.Returns? then Rests(old(queues)) else old(queues)
    {
      var any := TestAny();
      if terminated {
        return Throws;
      }
      if !any {
        return Waits;
      }
      var items := TakeReady();
      return Returns(items);
    }

    method AddQueue(key: Key)
      modifies this`queues
      ensures queues == if key in old(queues) then old(queues) else old(queues)[key := []]
    {
      if key !in queues {
        queues := queues[key := []];
      }
    }

    method RemoveQueue(key: Key)
      modifies this`queues
      ensures queues == old(queues) - {key}
    {
      queues := queues - {key};
    }

    method Clear()
      modifies this`queues
      ensures queues == map k | k in old(queues) :: []
    {
      var todo := queues.Keys;
      while todo != {}
        invariant todo <= queues.Keys == old(queues).Keys
        invariant forall k <- queues :: queues[k] == if k in todo then old(queues)[k] else []
      {
        var key :| key in todo;
        todo := todo - {key};
        queues := queues[key := []];
      }
    }
  }

  /** `hasAll` promises that no get waits; exactly without any queue that is false. */
  lemma HasAllPromise(q: Queues)
    ensures HasAll(q) && !HasAny(q) <==> q == map[]
  {
    if q != map[] {
      assert exists k :: k in q;
    }
  }
}

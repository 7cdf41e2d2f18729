/** The four get modes over a keyed family of queues. */
module MultiQueueGetter {
  import opened Wrappers
  import opened MultiLockQueue

  datatype GetMode = Blocking | Latched | ReadyOnly | AtLeastOneNew {
    predicate Remembers() {
      Latched? || AtLeastOneNew?
    }
  }

  type Batch = map<Key, Item>

  predicate WouldWait(mode: GetMode, q: Queues, last: Batch) {
    match mode
    case Blocking => !HasAll(q)
    case ReadyOnly => false
    case Latched => last == map[] && !HasAll(q)
    case AtLeastOneNew => if last == map[] then !HasAll(q) else !HasAny(q)
  }

  function LastAfter(mode: GetMode, q: Queues, last: Batch): Batch {
    if mode.Remembers() then last + Heads(q) else last
  }

  ghost function Output(mode: GetMode, q: Queues, last: Batch): seq<Item> {
    Values(if mode.Remembers() then last + Heads(q) else Heads(q))
  }

  class Getter {
    const mode: GetMode
    var lastItems: Batch

    constructor (mode: GetMode)
      ensures this.mode == mode && lastItems == map[]
    {
      this.mode := mode;
      lastItems := map[];
    }

    method HasNext(q: MultiQueue) returns (next: bool)
      ensures next == !WouldWait(mode, q.queues, lastItems)
      ensures match mode
              case Blocking => next <==> forall k <- q.queues :: q.queues[k] != []
              case ReadyOnly => next
              case Latched => next <==> lastItems != map[] || forall k <- q.queues :: q.queues[k] != []
              case AtLeastOneNew =>
                if lastItems == map[] then next <==> forall k <- q.queues :: q.queues[k] != []
                else next <==> exists k <- q.queues :: q.queues[k] != []
    {
      match mode
      case Blocking =>
        next := q.TestAll();
      case ReadyOnly =>
        return true;
      case Latched =>
        if lastItems == map[] {
          next := q.TestAll();
        } else {
          return true;
        }
      case AtLeastOneNew =>
        if lastItems == map[] {
          next := q.TestAll();
        } else {
          next := q.TestAny();
        }
    }

    /** Overwrites the remembered item of every key of `items`. */
    method Remember(items: Batch)
      modifies this`lastItems
      ensures lastItems == old(lastItems) + items
    {
      var todo := items.Keys;
      while todo != {}
        invariant todo <= items.Keys
        invariant lastItems == old(lastItems) + (items - todo)
      {
        var key := Least(todo);
        todo := todo - {key};
        lastItems := lastItems[key := items[key]];
      }
    }

    method CopyValues(items: Batch) returns (values: seq<Item>)
      ensures values == Values(items)
    {
      values := [];
      ghost var keys: seq<Key>, done: set<Key> := [], {};
      var todo := items.Keys;
      while todo != {}
        invariant todo <= items.Keys && done == items.Keys - todo && MultiLockQueue.Lists(keys, done)
        invariant forall k <- done, t <- todo :: k < t
        invariant |values| == |keys| && forall i | 0 <= i < |keys| :: keys[i] in items && values[i] == items[keys[i]]
      {
        var key := Least(todo);
        ListingMore(keys, done, key);
        done := done + {key};
        todo := todo - {key};
        keys := keys + [key];
        values := values + [items[key]];
      }
      assert done == items.Keys;
      ListedValues(items, keys, values);
    }

    method Get(q: MultiQueue) returns (o: Outcome<seq<Item>>)
      modifies this`lastItems, q`queues
      ensures o == if q.terminated then Throws
                   else if WouldWait(mode, old(q.queues), old(lastItems)) then Waits
                   else Returns(Output(mode, old(q.queues), old(lastItems)))
      ensures o.Returns? ==> q.queues == Rests(old(q.queues))
                             && lastItems == LastAfter(mode, old(q.queues), old(lastItems))
      ensures !o.Returns? ==> q.queues == old(q.queues) && lastItems == old(lastItems)
      ensures match mode
              case Blocking => o.Waits? <==> !q.terminated && exists k <- old(q.queues) :: old(q.queues)[k] == []
              case ReadyOnly => !o.Waits?
              case Latched =>
                o.Waits? <==> !q.terminated && old(lastItems) == map[] && exists k <- old(q.queues) :: old(q.queues)[k] == []
              case AtLeastOneNew =>
                o.Waits? <==> !q.terminated && if old(lastItems) == map[]
                                               then exists k <- old(q.queues) :: old(q.queues)[k] == []
                                               else forall k <- old(q.queues) :: old(q.queues)[k] == []
    {
      var r: Outcome<Batch>;
      if mode.Blocking? || (mode.Remembers() && lastItems == map[]) {
        r := q.PopAll();
      } else if mode.AtLeastOneNew? {
        r := q.PopAtLeastOne();
      } else {
        r := q.PopReady();
      }
      if !r.Returns? {
        return if r.Throws? then Throws else Waits;
      }
      if mode.Remembers() {
        Remember(r.value);
        var values := CopyValues(lastItems);
        return Returns(values);
      } else {
        var values := CopyValues(r.value);
        return Returns(values);
      }
    }
  }
}

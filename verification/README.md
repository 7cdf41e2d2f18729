# A verified model of Superflow's ports, queues and configuration

Superflow moves data between threads through connected ports. This project models the parts of it
whose behaviour spans many calls, objects or threads, and proves in Dafny what they keep:

- **Ports** (`Ports`, `PortNetwork`, `PortTheorems`, `PortRuns`, `PortLists`). Every port keeps its own record of
  its peers; `connect` and `disconnect` call the peer, which calls back. `PortNetwork.Network` holds
  the records of a whole network and runs the mutually recursive calls of all port kinds: producers,
  buffered and callback consumers, multi consumers, requesters, multi requesters, responders, hosts and
  clients. Each call is proved to end and to leave behind what a closed form in `Ports` says, from any
  well-typed network, half-linked ones included. On the closed forms stand the theorems about links,
  refusals, indexes and delivery, for single calls, for whole runs and for lists of connects. Exceptions are results
  (`Agreed`, `Refused`); which casts between ports succeed is a parameter (`Casting`).
- **LockQueue** (`LockQueue`, `LockQueueCalls`, `LockQueueTraps`, `BufferedConsumer`). A bounded queue
  under a mutex and two condition variables, as a step system over any number of threads, with spurious
  wakeups, any choice of the thread that `notify_one` wakes, and `terminate` in its separate stages.
  Reads of the terminate flag are sequentially consistent. `LockQueueTraps` says exactly when a thread
  can be left asleep. `BufferedConsumer` has the same queue as an object, tied to the step system, and
  the latched getter with its runs.
- **MultiLockQueue** (`MultiLockQueue`, `MultiQueueGetter`, `MultiQueueRuns`). The keyed queues as an
  object, the four get modes, and whole runs of pushes and gets.
- **YAML expansion** (`ReplicaIds`, `ProxelConfigs`, `ProxelConnections`, `GraphConfig`,
  `GraphCreation`). From sections and connection specifications that are already parsed to
  configurations and point-to-point connections, and on to the graph with its ports connected.
- **Throttle** (`Throttle`). The latest-value-wins worker.

Where the code and its comments differ, the model follows the code:

- A producer records a consumer before asking it and does not take that back
  (core/include/superflow/producer_port.h:159-160). `PortTheorems.RefusalLeaves` gives the exact residue,
  `PortTheorems.ConnectKeeps` says that this is the only way to a one-sided link, and
  `PortRuns.EveryRunDeliversIff` and `PortRuns.TurnedAwayThenDelivers` say what it does to delivery.
- `hasAll` is documented to promise that every get returns at once
  (core/include/superflow/utils/multi_lock_queue.h:103-106). `MultiLockQueue.HasAllPromise`: that fails
  exactly when there is no queue.
- `front`, `clearQueue` and the unlocked flag of `terminate` can each leave a thread asleep:
  `LockQueueTraps.FrontStrands` (in every queue), `LockQueueTraps.ClearStrandsIff` (in every blocking
  queue and no other), `LockQueueTraps.TerminateMissesIff` (exactly when a thread is between its test
  and its wait).
- A latched consumer repeats its last value also after it was deactivated, if and only if its queue is
  empty (core/include/superflow/queue_getter.h:45-48): `BufferedConsumer.TerminatedGet`.
- The getters keep the last items of producers that have been disconnected: the key set never shrinks
  (`MultiQueueRuns.LatchedNeverWaitsAgain`).

`dafny verify dfyconfig.toml` checks the project.

## Model

| member | source | states |
|---|---|---|
| `PortNetwork.Network.Connect` | core/include/superflow/port.h:18-24 | the dispatch over all port kinds terminates and leaves exactly the network and the reply of the non-recursive `AfterConnect`, from any well-typed network |
| `PortNetwork.Network.ManagerConnect` | core/include/superflow/connection_manager.h:75-119 | a connection manager's answer, for both policies: already connected, refused, or the outcome of the offer |
| `PortNetwork.Network.Offer` | core/include/superflow/connection_manager.h:84-119 | insert, nested connect and rollback: after a refusal every port of the network is as before |
| `PortNetwork.Network.KeyedConnect` | core/include/superflow/multi_consumer_port.h:106-110 | the queue key (or slave) is added exactly when the handshake succeeded |
| `PortNetwork.Network.ProducerConnect` | core/include/superflow/producer_port.h:144-161 | type check, early exit, and no rollback |
| `PortNetwork.Network.SlotConnect` | core/include/superflow/interface_port.h:135-151 | a client leaves its old host first; a requester that is connected refuses (requester_port.h, the same shape) |
| `PortNetwork.Network.DisconnectAll` | core/include/superflow/port.h:26-30 | terminates, and empties exactly the ports `AfterDisconnectAll` names, across all callbacks |
| `PortNetwork.Network.ManagerDisconnectAll` | core/include/superflow/connection_manager.h:122-133 | swap, then notify: the port has no peers, each former peer has dropped it, nothing else changed |
| `PortNetwork.Network.ProducerDisconnectAll` | core/include/superflow/producer_port.h:163-172 | each former consumer ends with no peers at all |
| `PortNetwork.Network.SlotDisconnectAll` | core/include/superflow/requester_port.h:135-146 | the former responder or host ends with no peers at all |
| `PortNetwork.Network.Disconnect` | core/include/superflow/port.h:32-36 | a specific disconnect leaves exactly `AfterDisconnect`, cascade of requesters and clients included |
| `PortNetwork.Network.RecordDisconnect` | core/include/superflow/connection_manager.h:135-168 | erase, then call the peer, whose callback finds nothing |
| `PortNetwork.Network.Send` | core/include/superflow/producer_port.h:211-220 | every listed consumer takes the item in once, unless it was deactivated, and nobody else does |
| `PortRuns.DeactivatedTakesNothing` | core/include/superflow/buffered_consumer_port.h:92-99 | a buffered consumer that was deactivated takes nothing in any more, in any run |
| `PortRuns.MultiConsumersGoOn` | core/include/superflow/multi_consumer_port.h:96-100 | a deactivated multi consumer goes on taking in all that the producers it lists send |
| `PortNetwork.AskingThePeer` | core/include/superflow/connection_manager.h:84-94 | the nested handshake seen from the caller: what the peer's answer and its own callback make of the caller's call |
| `PortNetwork.IsolateOneMore` | core/include/superflow/producer_port.h:166-171 | cutting off consumers one after the other is cutting off all of them, whatever links they have among each other |
| `PortTheorems.DisconnectAllReach` | core/include/superflow/connection_manager.h:122-133 | on mutual links, disconnect-all removes exactly the port's own links, or for a producer, requester or client every link of each former peer |
| `PortTheorems.DisconnectReach` | core/include/superflow/requester_port.h:148-157 | a specific disconnect removes exactly that link, and with a requester or client at either end every link of its responder or host |
| `PortTheorems.ConnectAgreesIff` | core/include/superflow/connection_manager.h:97-119 | when a connect is accepted, kind by kind, decided from what the two ports hold before the call |
| `PortTheorems.RefusalLeaves` | core/include/superflow/connection_manager.h:84-119 | a refused connect changes nothing in the network, unless a producer was turned away: then exactly its half-link stays |
| `PortTheorems.NewLink` | core/include/superflow/interface_port.h:135-151 | a connect both ends are willing to make records each in the other, after a client has left its old host |
| `PortTheorems.ConnectReach` | core/include/superflow/interface_port.h:135-151 | an accepted connect adds exactly that link and removes nothing but all links of a host a client left |
| `PortTheorems.ConnectFromEitherEnd` | core/include/superflow/port.h:18-24 | whichever end starts, the answer is the same, and so is the resulting network when accepted |
| `PortTheorems.ConnectKeeps` | core/include/superflow/producer_port.h:144-161 | connect keeps typing, policies and indexes; mutual links stay mutual if and only if no producer is turned away |
| `PortTheorems.DisconnectAllKeeps` | core/include/superflow/producer_port.h:163-172 | disconnect-all keeps typing, policies, indexes and mutual links, also on networks with half-links |
| `PortTheorems.DisconnectKeeps` | core/include/superflow/producer_port.h:174-188 | so does a specific disconnect |
| `PortTheorems.DisconnectUndoesConnect` | core/include/superflow/connection_manager.h:135-168 | connecting and disconnecting two ports that are no requester or client restores the network |
| `PortTheorems.ConnectKeepsAnswers` | core/include/superflow/producer_port.h:159-160 | a connect keeps "every port that lists x is listed by x" if and only if it is not x that turns the producer away |
| `PortRuns.Execute` | core/include/superflow/port.h:18-36 | a sequence of calls carried out by the ports, refused ones among them, leaves what the run function says |
| `PortRuns.EveryRunIsSound` | core/include/superflow/multi_requester_port.h:63-86 | after every run whatsoever, kind by kind: which kinds are linked, and with matching types; a requester, a client and a Single consumer have at most one peer; a one-sided link is a producer's towards a Single consumer; queue keys of a multi consumer and slave keys of a multi requester are its connections |
| `PortRuns.LinksStayMutual` | core/include/superflow/connection_manager.h:75-168 | runs in which no producer is turned away keep "a lists b iff b lists a" |
| `PortRuns.EveryRunDeliversIff` | core/include/superflow/producer_port.h:211-220 | a port takes in exactly the sends of the producers it lists at that moment, a buffered consumer those before its deactivation, once each, in send order, if and only if no send of the run comes from a producer that lists the port without being listed; in any case nothing that is due is missing |
| `PortRuns.EveryRunDelivers` | core/include/superflow/producer_port.h:211-220 | so it is for every port that has not itself turned a producer away, whatever other ports did; and only a Single consumer can |
| `PortRuns.TurnedAwayThenDelivers` | core/include/superflow/producer_port.h:159-160 | after any run: a producer that is turned away and sends next delivers an item that is not due |
| `PortRuns.TurnedAwayButDelivering` | core/include/superflow/producer_port.h:159-160 | the shortest such run |
| `PortLists.AllAgreeIff` | core/include/superflow/graph_factory.h:47-48 | a list of connects, in any order and from either end: if no client is to have two hosts, all are accepted if and only if the ports accept each other and no port that takes one peer is to have two |
| `PortLists.AllLinksIff` | core/include/superflow/interface_port.h:135-151 | once all of a list were accepted, exactly its links and the older ones exist if and only if no client was to have two hosts |
| `LockQueue.NextKeepsInvariant` | core/include/superflow/utils/lock_queue.h:188-215 | mutual exclusion, the capacity bound, and that what the thread in the mutex found out still holds |
| `LockQueue.EveryRunConserves` | core/include/superflow/utils/lock_queue.h:138-215 | in every interleaving: initial items then accepted pushes are the removed items then the contents; only a leaky queue drops, and only items at least capacity-many newer ones have followed |
| `LockQueue.EveryRunFromStartConserves` | core/include/superflow/utils/lock_queue.h:138-215 | the same from the constructor on, within the capacity; a blocking queue drops nothing |
| `LockQueue.EveryRunStrandsNobody` | core/include/superflow/utils/lock_queue.h:188-230 | if a consumer sleeps, items are at most the owed notifications plus consumers about to look; if a producer sleeps, so are the free slots; also with `clearQueue` on a leaky queue |
| `LockQueue.SleepersMustWait` | core/include/superflow/utils/lock_queue.h:217-230 | once notifications and rechecks are done, consumers sleep only on an empty queue and producers only on a full one |
| `LockQueue.AtMostOneMore` | core/include/superflow/utils/lock_queue.h:111-120 | after the flag is set, the rest of any run changes the contents by at most the one operation already past its check |
| `LockQueueTraps.FrontStrands` | core/include/superflow/utils/lock_queue.h:122-136 | in every queue: with `front` in the run, a consumer can sleep beside an item for good |
| `LockQueueTraps.ClearStrandsIff` | core/include/superflow/utils/lock_queue.h:85-91 | with `clearQueue` in the run, a thread can be left asleep although it could proceed if and only if the queue is a blocking one |
| `LockQueueTraps.TerminateMissesIff` | core/include/superflow/utils/lock_queue.h:111-120 | from any state: `terminate` can leave a thread asleep, when it has notified all, if and only if some thread has found that it must wait and does not wait yet when the flag is set; otherwise nobody sleeps from then on |
| `LockQueueTraps.AsleepForGood` | core/include/superflow/utils/lock_queue.h:111-120 | a thread that is asleep when nobody is left to notify sleeps until a spurious wakeup |
| `LockQueueTraps.TerminateMissesASleeper` | core/include/superflow/utils/lock_queue.h:111-120 | every queue has a run from its constructor to such a state |
| `LockQueue.SeenItemStays` | core/include/superflow/queue_getter.h:41-52 | what the only consumer has seen in the queue is not gone when it pops, whatever the other threads push, and at no point of its way to the pop does it sleep or have to |
| `LockQueue.NewestIsTakenOrNext` | core/include/superflow/queue_getter.h:45-48 | in every interleaving: if the queue is empty, the newest item accepted is the one popped last, at any capacity; if it is not and has room for one item, it is the one to be popped next |
| `BufferedConsumer.CallAlone` | core/include/superflow/utils/lock_queue.h:138-215 | an uninterrupted call of the step system has the outcome and the effect of the object's method |
| `BufferedConsumer.BoundedQueue.Push` | core/include/superflow/utils/lock_queue.h:174-186 | drops the oldest item, blocks or throws as the policy says |
| `BufferedConsumer.BoundedQueue.Pop` | core/include/superflow/utils/lock_queue.h:138-149 | returns and removes the oldest item, blocks or throws |
| `BufferedConsumer.QueueAfterIs` | core/include/superflow/utils/lock_queue.h:138-186 | a push leaves the newest items, as many as there is room for; a pop takes the oldest |
| `BufferedConsumer.LatchedGetter.Get` | core/include/superflow/queue_getter.h:41-52 | with any pushes and a `terminate` between its test and its pop: never waits once it has a value, returns the oldest unread item or the last one again |
| `BufferedConsumer.Serve` | core/include/superflow/buffered_consumer_port.h:92-99 | a sequence of pushes, `terminate` and gets carried out by queue and getter gives what the run function says |
| `BufferedConsumer.EveryRunLatches` | core/include/superflow/policy.h:11-12 | in every such run, for both leak policies: each get returns the oldest unread item or, when nothing is unread, the newest item accepted; in order; with room for one item always the newest as of its last look; and none waits after the first value |
| `BufferedConsumer.EveryRunAccepts` | core/include/superflow/utils/lock_queue.h:162-186 | a leaky queue accepts every push of a run, in order, until it is terminated |
| `BufferedConsumer.OneSlotKeepsTheLast` | core/include/superflow/policy.h:11-12 | from a leaky queue with one slot, a get that pops returns the last push before its pop |
| `BufferedConsumer.TerminatedGet` | core/include/superflow/queue_getter.h:45-48 | after `terminate` a latched get returns something if and only if it has a value and the queue is empty; otherwise it throws |
| `MultiLockQueue.MultiQueue.Push` | core/include/superflow/utils/multi_lock_queue.h:161-178 | keyed push: adds the queue, drops the oldest when full |
| `MultiLockQueue.PushKeepsNewest` | core/include/superflow/utils/multi_lock_queue.h:161-178 | a push leaves the newest items of its key, as many as there is room for, and other keys alone |
| `MultiLockQueue.MultiQueue.TakeReady` | core/include/superflow/utils/multi_lock_queue.h:435-453 | one item from every queue that has one, and only that |
| `MultiLockQueue.MultiQueue.PopAll` | core/include/superflow/utils/multi_lock_queue.h:249-255 | waits exactly while some queue is empty |
| `MultiLockQueue.MultiQueue.PopAtLeastOne` | core/include/superflow/utils/multi_lock_queue.h:241-247 | waits exactly while all queues are empty |
| `MultiLockQueue.MultiQueue.TestAll` | core/include/superflow/utils/multi_lock_queue.h:332-345 | true exactly when no queue is empty |
| `MultiLockQueue.MultiQueue.TestAny` | core/include/superflow/utils/multi_lock_queue.h:308-322 | true exactly when some queue is not empty |
| `MultiLockQueue.HasAllPromise` | core/include/superflow/utils/multi_lock_queue.h:103-106 | "all" without "any" exactly when there are no queues |
| `MultiQueueGetter.Getter.Get` | core/include/superflow/multi_queue_getter.h:16-146 | in every mode: when it waits, what it takes out, and the items it returns in key order |
| `MultiQueueGetter.Getter.HasNext` | core/include/superflow/multi_queue_getter.h:34-142 | true exactly when the next get does not wait |
| `MultiQueueRuns.Execute` | core/include/superflow/multi_consumer_port.h:96-100 | a sequence of pushes, gets, clears, changes of the key set and `terminate` carried out by queues and getter gives what the run function says |
| `MultiQueueRuns.PushedIsHistory` | core/include/superflow/utils/multi_lock_queue.h:161-178 | what the theorems below call pushed is what the run pushed to the key, in order |
| `MultiQueueRuns.TerminatedForGood` | core/include/superflow/utils/multi_lock_queue.h:229-255 | after `terminate` every get of every run throws and takes nothing |
| `MultiQueueRuns.EveryRunAligns` | core/include/superflow/utils/multi_lock_queue.h:435-453 | in every mode and interleaving, for every key: what was pushed is what the gets took, what was dropped, and what is still there; each get took the oldest of what was left, if anything was |
| `MultiQueueRuns.BarrierAligned` | core/include/superflow/multi_queue_getter.h:16-38 | for every interleaving with a fixed key set: the j-th blocking get returns, in key order, for every key the item pushed after j others plus as many as were dropped before, so the j-th exactly where nothing was dropped |
| `MultiQueueRuns.ReadyOnlyTakesOldest` | core/include/superflow/multi_queue_getter.h:81-105 | each ready-only get returns, in key order, the oldest unread item of every key that has one |
| `MultiQueueRuns.GetsEnd` | core/include/superflow/multi_queue_getter.h:81-105 | every get of a run returns, waits or throws; none throws before `terminate`, and a ready-only get never waits |
| `MultiQueueRuns.GetWaitsIff` | core/include/superflow/multi_queue_getter.h:16-146 | when a get of each mode waits, from what was pushed, taken and dropped: a blocking one and the first latched or at-least-one-new one for every key, later at-least-one-new ones for any, later latched ones and ready-only ones never |
| `MultiQueueRuns.EveryRunRemembers` | core/include/superflow/multi_queue_getter.h:40-146 | every output of a latched or at-least-one-new getter is the last-value map of what was taken out; at-least-one-new always takes something once it has values |
| `MultiQueueRuns.LatestIsLast` | core/include/superflow/multi_queue_getter.h:51-54 | that map has every key ever delivered, with the item delivered last |
| `MultiQueueRuns.LatchedNeverWaitsAgain` | core/include/superflow/multi_queue_getter.h:44-75 | after its first non-empty get a latched getter never waits, and its key set never shrinks |
| `ReplicaIds.DecimalIsNumber` | yaml/src/yaml.cpp:484-489 | the index is written in decimal digits without leading zeros |
| `ReplicaIds.ReplicaIdInjective` | yaml/src/yaml.cpp:484-489 | `name_index` determines name and index |
| `ProxelConfigs.GetReplicatedConfigs` | yaml/src/yaml.cpp:294-326 | the nested loops compute the replica configurations property by property, or the first failure |
| `ProxelConfigs.ReplicaConfigsAre` | yaml/src/yaml.cpp:294-326 | it fails with a size error exactly when some dealt-out list has another length than the replica count; otherwise replica i has id `name_i` and its own properties |
| `ProxelConfigs.DealtThenCollected` | yaml/src/yaml.cpp:303-321 | reading a dealt-out key across all replicas in index order gives back the list |
| `ProxelConfigs.OtherKeysKept` | yaml/src/yaml.cpp:300-321 | every other key reads in each replica as in the file, except `replicate`, which is gone |
| `ProxelConfigs.GetAllProxelConfigs` | yaml/src/yaml.cpp:219-292 | all sections, in order, disabled entries skipped |
| `ProxelConfigs.ConfigsOkIff` | yaml/src/yaml.cpp:265-292 | reading the sections succeeds exactly when every enabled entry has a type and, if replicated, lists of the right sizes |
| `ProxelConfigs.DisabledEntry` | yaml/src/yaml.cpp:269-274 | an entry stands for nothing if it says `enable: false`, and for something otherwise |
| `ProxelConfigs.SingleEntry` | yaml/src/yaml.cpp:255-263 | an entry without replicas is one configuration with its name, its type and all its properties, and fails exactly if it has no type that is a text |
| `ProxelConfigs.ReplicatedEntry` | yaml/src/yaml.cpp:294-326 | a replicated entry is one configuration per replica, each with its id, its own type and, key by key, its own properties; it fails exactly if a list has another size or a type is no text |
| `ProxelConfigs.ConfigsAppend` | yaml/src/yaml.cpp:219-229 | configurations come in file order, and the first failure of the file is the one reported |
| `ProxelConnections.ExpandSpecifier` | yaml/src/yaml.cpp:411-446 | one endpoint per replica or per port; refused exactly for a port list on a replicated proxel |
| `ProxelConnections.ExpandNode` | yaml/src/yaml.cpp:345-405 | the resize loops compute the zip or broadcast of the two sides, or the problem |
| `ProxelConnections.ExpandsIff` | yaml/src/yaml.cpp:345-385 | a specification between enabled names expands if and only if no port list is used on a replicated proxel and the sizes of its ends are equal or one is 1 |
| `ProxelConnections.ZipOrBroadcast` | yaml/src/yaml.cpp:374-446 | then it makes as many connections as the larger end has, the i-th of which joins replica or port i of each end, or its only one |
| `ProxelConnections.GetConnections` | yaml/src/yaml.cpp:328-409 | the contributions in file order, or the first problem |
| `ProxelConnections.ConnectionsInOrder` | yaml/src/yaml.cpp:328-409 | connections come in file order, and the first problem of the file is the one reported |
| `ProxelConnections.ExpansionFailsIff` | yaml/src/yaml.cpp:345-385 | the expansion fails exactly when some specification is malformed, ambiguous or of unequal sizes |
| `GraphConfig.GetAllNames` | yaml/src/yaml.cpp:448-475 | the enabled names: replica ids and base names |
| `GraphConfig.InAllNames` | yaml/src/yaml.cpp:448-475 | the names are those of the entries that say, or do not say, `enable: false`, and of their replicas |
| `GraphConfig.GetAllReplicas` | yaml/src/yaml.cpp:491-533 | the loops compute the replica map, which ignores `enable` |
| `GraphConfig.RulingDefinition` | yaml/src/yaml.cpp:491-508 | the replica map has the count of the last definition in the first section that has one |
| `GraphConfig.SomeDefinitionRules` | yaml/src/yaml.cpp:527-533 | and every name in it has such a definition |
| `GraphConfig.ConfigIdsAre` | yaml/src/yaml.cpp:265-326 | the ids of the configurations, in order |
| `GraphConfig.IdsDistinctIff` | core/include/superflow/graph_factory.h:18-21 | all ids are distinct if and only if, among the enabled entries, no two single ones and no two replicated ones share a name and no single one bears a replica's id |
| `GraphConfig.EndpointIsId` | yaml/src/yaml.cpp:370-446 | an endpoint expanded from an enabled name is the id of a configuration |
| `GraphConfig.ConnectionsMeetConfigs` | yaml/src/yaml.cpp:265-446 | every endpoint of every connection is the id of exactly one configuration |
| `GraphConfig.EndKnownIff` | yaml/src/yaml.cpp:411-446 | all that one end of a specification expands to are ids if and only if the replicas that the replica map gives it are, or else the name itself is |
| `GraphConfig.ContributionLoopsIff` | yaml/src/yaml.cpp:345-405 | a specification connects a proxel to itself if and only if its ends are the same proxel or replicas, or a replica and a proxel under its id |
| `GraphCreation.ConnectionsJoinIdsIff` | yaml/src/yaml.cpp:328-409 | all connections join two different ids if and only if that holds of no specification and all ends are known |
| `GraphCreation.CreateProxels` | core/include/superflow/graph_factory.h:11-35 | the map of all proxels, or the first error: an id defined before, an unknown type, a factory that throws |
| `GraphCreation.ConnectOne` | core/src/graph.cpp:124-148 | a loop, an unknown proxel or port, a null port, or whatever the ports make of the connect |
| `GraphCreation.ConnectAll` | core/include/superflow/graph_factory.h:47-48 | connects in order up to the first failure: succeeds exactly when every lookup does and all ports agree, and leaves the links of the connections before the failure |
| `GraphCreation.BuildGraph` | core/include/superflow/graph_factory.h:37-51 | succeeds exactly when ids are distinct, factories work and all connections succeed |
| `GraphCreation.NewGraphIsConnected` | core/include/superflow/graph_factory.h:37-51 | in a new graph in which no client is connected to two hosts: when the ports accept all connections, and that the links are then exactly those of the list |
| `GraphCreation.CreateGraph` | yaml/src/yaml.cpp:133-138 | the whole expansion: exactly when it succeeds, in terms of the file, the factories and the ports; with which proxels, connections and links; and when it cannot fail for a duplicate or an unknown proxel |
| `Throttle.EveryRunIsValid` | core/include/superflow/utils/throttle.h:80-115 | each callback gets the newest push at that moment, pushes are handed out in strictly increasing order, and a callback begins at least `delay` after the previous one ended |
| `Throttle.PushesAreHistory` | core/include/superflow/utils/throttle.h:103-115 | the pushes these theorems speak of are those of the run, in order |
| `Throttle.PassedOverOnlyForNewer` | core/include/superflow/utils/throttle.h:80-115 | while the worker runs, every push was handed out, or a newer one was, or the newest is in the buffer |
| `Throttle.PendingIsHandedOut` | core/include/superflow/utils/throttle.h:80-103 | while it is not stopped, the worker hands out a pending push as soon as the delay is over, by its own steps and the passing of time alone |
| `Throttle.EveryRunEndsOnlyStopped` | core/include/superflow/utils/throttle.h:80-103 | only a stop or a callback that throws ends the worker |

## Left out

- Type conversion between ports (variants, shims, upcasts): reduced to the relation `Casting` and the kinds a cast can succeed on.
- PortNetwork.Network.Send: a producer that blocks on a full consumer is not modelled; `inbox` is the sequence of items taken in, and what a bounded buffer then does with them is in `BufferedConsumer`.
- Queue contents of a multi consumer inside the network: the network keeps the queue keys, `MultiLockQueue` the contents.
- Transaction counters, `getStatus`, `numConnections` and `isConnected`.
- `MultiRequesterPort::request`, `ResponderPort::respond` and `MappedAssetManager`: the slave keys are in the network; answering requests in key order would only add easy members.
- Callbacks that connect or disconnect ports while data is being sent, and null ports.
- LockQueue: the step system is a transition function on values, because any number of threads act on it; the object in `BufferedConsumer` is updated in place.
- Throttle: a transition function on values for the same reason; exceptions that `push` rethrows and the destructor's join are not modelled.
- Liveness: nothing is said about when a thread runs, nor about waiters of `MultiLockQueue`, which notifies one waiter per push and none on removal.
- MultiLockQueue.MultiQueue.Push: requires that the code does not take from an empty queue, which is undefined; it would only in a family constructed without any room.
- The peeking gets of `MultiLockQueue`: they return what the popping ones return and change nothing.
- YAML parsing, file loading, include paths and conversions of values of the wrong type: `enable` and `replicate` count as absent unless they are a flag and a number; a value dealt out over replicas is a list.
- ProxelConnections.ExpandSpecifier: requires a port, because the code reads the first element of an empty list otherwise.
- GraphCreation.CreateGraph: factories and the ports that the proxels they create have are parameters.
- Starting and stopping graphs, signals, timers, the curses, loader and GraphViz parts.

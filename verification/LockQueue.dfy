/** The bounded queue under a mutex and two condition variables, as a step system over any number of
    threads. A step is what one thread does between two points at which another may run: take the
    mutex, test the wait condition, go to sleep, read the flag, change the queue and release, notify
    one sleeper, wake up for no reason, or one of the three stages of `terminate`.
 */
module LockQueue {
  import opened Wrappers

  type Item = int
  type Tid = nat

  datatype LeakPolicy = Leaky | PushBlocking
  datatype Config = Config(capacity: nat, leak: LeakPolicy, initial: seq<Item>)

  /** The constructor throws otherwise. */
  predicate Constructible(cfg: Config) {
    1 <= cfg.capacity && |cfg.initial| <= cfg.capacity
  }

  datatype Op = Push(item: Item) | Pop | Front

  datatype Pc =
    | Idle
    | Entering(op: Op)   // wants the mutex
    | Checking(op: Op)   // holds the mutex, about to test the wait condition
    | Sleepy(op: Op)     // holds the mutex, has to wait
    | Asleep(op: Op)     // waits on the condition variable of its side
    | Woken(op: Op)      // wants the mutex back
    | Passed(op: Op)     // holds the mutex, waits no more, about to read the flag
    | Cleared(op: Op)    // holds the mutex, has read that the queue is not terminated
    | NotifyingProducer
    | NotifyingConsumer
    | Ending             // in terminate, about to set the flag
    | WakingProducers
    | WakingConsumers

  datatype Cause = Popped | Dropped
  datatype Removal = Removal(item: Item, cause: Cause)

  /** `accepted` and `removed` are histories; the code does not keep them. */
  datatype State = State(
    queue: seq<Item>,
    terminated: bool,
    holder: Option<Tid>,
    threads: map<Tid, Pc>,
    accepted: seq<Item>,
    removed: seq<Removal>)

  datatype Action =
    | Call(op: Op)
    | Acquire
    | Test
    | Sleep
    | ReadFlag
    | Commit
    | NotifyOne(sleeper: Option<Tid>)
    | WakeUp
    | BeginTerminate
    | SetFlag
    | NotifyAll
    | Clear

  datatype Event = Event(thread: Tid, action: Action)

  predicate HoldsMutex(pc: Pc) {
    pc.Checking? || pc.Sleepy? || pc.Passed? || pc.Cleared?
  }

  /** The operation has to wait for the other side. */
  predicate Blocked(cfg: Config, op: Op, queue: seq<Item>) {
    if op.Push? then cfg.leak.PushBlocking? && |queue| >= cfg.capacity else queue == []
  }

  function Goto(s: State, t: Tid, pc: Pc): State {
    s.(threads := s.threads[t := pc])
  }

  function Release(s: State, t: Tid, pc: Pc): State {
    s.(holder := None, threads := s.threads[t := pc])
  }

  /** What the operation does to the queue: a push onto a full queue drops the oldest item. */
  function Effect(cfg: Config, s: State, op: Op): State
    requires op.Pop? ==> s.queue != []
    requires op.Push? ==> s.queue != [] || cfg.capacity >= 1
  {
    match op
    case Push(x) =>
      if |s.queue| >= cfg.capacity then
        s.(queue := s.queue[1..] + [x], accepted := s.accepted + [x],
           removed := s.removed + [Removal(s.queue[0], Dropped)])
      else
        s.(queue := s.queue + [x], accepted := s.accepted + [x])
    case Pop => s.(queue := s.queue[1..], removed := s.removed + [Removal(s.queue[0], Popped)])
    case Front => s
  }

  function AfterCommit(cfg: Config, op: Op): Pc {
    match op
    case Push(_) => NotifyingConsumer
    case Pop => if cfg.leak.PushBlocking? then NotifyingProducer else NotifyingConsumer
    case Front => Idle
  }

  predicate SleepsAs(s: State, u: Tid, producer: bool) {
    u in s.threads && s.threads[u].Asleep? && s.threads[u].op.Push? == producer
  }

  /** One sleeper wakes if there is any; which one is not determined. */
  predicate MayWake(s: State, sleeper: Option<Tid>, producer: bool) {
    match sleeper
    case Some(u) => SleepsAs(s, u, producer)
    case None => forall u <- s.threads :: !SleepsAs(s, u, producer)
  }

  function Wake(s: State, sleeper: Option<Tid>): State
    requires sleeper.Some? ==> sleeper.value in s.threads && s.threads[sleeper.value].Asleep?
  {
    if sleeper.Some? then Goto(s, sleeper.value, Woken(s.threads[sleeper.value].op)) else s
  }

  function WakeAll(s: State, producer: bool): State {
    s.(threads := map u | u in s.threads ::
         if SleepsAs(s, u, producer) then Woken(s.threads[u].op) else s.threads[u])
  }

  /** One step, if it can be taken. */
  function Next(cfg: Config, s: State, e: Event): Option<State> {
    var t := e.thread;
    if t !in s.threads then None else
    var pc := s.threads[t];
    match (e.action, pc)
    case (Call(op), Idle) => Some(Goto(s, t, Entering(op)))
    case (Acquire, Entering(op)) =>
      if s.holder == None then Some(Goto(s.(holder := Some(t)), t, Checking(op))) else None
    case (Acquire, Woken(op)) =>
      if s.holder == None then Some(Goto(s.(holder := Some(t)), t, Checking(op))) else None
    case (Test, Checking(op)) =>
      Some(Goto(s, t, if Blocked(cfg, op, s.queue) && !s.terminated then Sleepy(op) else Passed(op)))
    case (Sleep, Sleepy(op)) => Some(Release(s, t, Asleep(op)))
    case (WakeUp, Asleep(op)) => Some(Goto(s, t, Woken(op)))
    case (ReadFlag, Passed(op)) =>
      Some(if s.terminated then Release(s, t, Idle) else Goto(s, t, Cleared(op)))
    case (Commit, Cleared(op)) =>
      // taking from an empty queue is undefined; `Invariant` rules it out
      if (op.Pop? && s.queue == []) || (op.Push? && s.queue == [] && cfg.capacity == 0) then None
      else Some(Release(Effect(cfg, s, op), t, AfterCommit(cfg, op)))
    case (NotifyOne(u), NotifyingProducer) =>
      if MayWake(s, u, true) then Some(Goto(Wake(s, u), t, NotifyingConsumer)) else None
    case (NotifyOne(u), NotifyingConsumer) =>
      if MayWake(s, u, false) then Some(Goto(Wake(s, u), t, Idle)) else None
    case (BeginTerminate, Idle) => Some(if s.terminated then s else Goto(s, t, Ending))
    case (SetFlag, Ending) => Some(Goto(s.(terminated := true), t, WakingProducers))
    case (NotifyAll, WakingProducers) => Some(Goto(WakeAll(s, true), t, WakingConsumers))
    case (NotifyAll, WakingConsumers) => Some(Goto(WakeAll(s, false), t, Idle))
    case (Clear, Idle) =>
      if s.holder == None then Some(s.(queue := [])) else None
    case _ => None
  }

  function Exec(cfg: Config, s: State, es: seq<Event>): Option<State>
    decreases |es|
  {
    if es == [] then Some(s) else
    match Next(cfg, s, es[0])
    case None => None
    case Some(m) => Exec(cfg, m, es[1..])
  }

  function Start(cfg: Config, tids: set<Tid>): State {
    State(cfg.initial, false, None, map t | t in tids :: Idle, [], [])
  }

  // ---------- Mutual exclusion, conservation and order ----------

  function Items(removed: seq<Removal>): (r: seq<Item>)
    ensures |r| == |removed| && forall i | 0 <= i < |r| :: r[i] == removed[i].item
  {
    seq(|removed|, i requires 0 <= i < |removed| => removed[i].item)
  }

  ghost predicate Exclusion(s: State) {
    && (forall t <- s.threads :: HoldsMutex(s.threads[t]) <==> s.holder == Some(t))
    && (s.holder.Some? ==> s.holder.value in s.threads)
  }

  /** What the thread inside the mutex has found out still holds. */
  ghost predicate Knows(cfg: Config, s: State, pc: Pc) {
    match pc
    case Sleepy(op) => Blocked(cfg, op, s.queue)
    case Passed(op) => s.terminated || !Blocked(cfg, op, s.queue)
    case Cleared(op) => !Blocked(cfg, op, s.queue)
    case _ => true
  }

  ghost predicate Invariant(cfg: Config, s: State) {
    && Exclusion(s)
    && (forall t <- s.threads :: Knows(cfg, s, s.threads[t]))
    && |s.queue| <= cfg.capacity
  }

  /** Nothing is lost, nothing is duplicated, and the order is kept. */
  ghost predicate Conserved(cfg: Config, s: State) {
    cfg.initial + s.accepted == Items(s.removed) + s.queue
  }

  /** Items are dropped only by a leaky queue, and only once `capacity` newer ones were accepted. */
  ghost predicate DropsAreOld(cfg: Config, s: State) {
    forall i | 0 <= i < |s.removed| && s.removed[i].cause.Dropped? ::
      && cfg.leak.Leaky?
      && |cfg.initial + s.accepted| - (i + 1) >= cfg.capacity
  }

  lemma GotoKeeps(cfg: Config, s: State, t: Tid, pc: Pc)
    requires Invariant(cfg, s) && t in s.threads && Knows(cfg, s, pc)
    requires HoldsMutex(pc) <==> HoldsMutex(s.threads[t])
    ensures Invariant(cfg, Goto(s, t, pc))
  {
  }

  lemma AcquireKeeps(cfg: Config, s: State, t: Tid, op: Op)
    requires Invariant(cfg, s) && t in s.threads && s.holder == None
    ensures Invariant(cfg, Goto(s.(holder := Some(t)), t, Checking(op)))
  {
  }

  lemma ReleaseKeeps(cfg: Config, s: State, t: Tid, pc: Pc)
    requires Invariant(cfg, s) && t in s.threads && s.holder == Some(t) && !HoldsMutex(pc)
    ensures Invariant(cfg, Release(s, t, pc))
  {
  }

  /** Only the thread inside the mutex knows anything about the queue. */
  lemma QueueChangeKeeps(cfg: Config, s: State, m: State, t: Tid, pc: Pc)
    requires Exclusion(s) && t in s.threads && s.holder in {None, Some(t)} && !HoldsMutex(pc)
    requires m.threads == s.threads && |m.queue| <= cfg.capacity
    ensures Invariant(cfg, Release(m, t, pc))
  {
  }

  lemma WakeAllKeeps(cfg: Config, s: State, producer: bool)
    requires Invariant(cfg, s)
    ensures Invariant(cfg, WakeAll(s, producer))
    ensures forall t <- s.threads | !s.threads[t].Asleep? :: WakeAll(s, producer).threads[t] == s.threads[t]
  {
  }

  lemma NotifyKeeps(cfg: Config, s: State, t: Tid, u: Option<Tid>)
    requires Invariant(cfg, s) && Next(cfg, s, Event(t, NotifyOne(u))).Some?
    ensures Invariant(cfg, Next(cfg, s, Event(t, NotifyOne(u))).value)
  {
    if u.Some? {
      GotoKeeps(cfg, s, u.value, Woken(s.threads[u.value].op));
    }
    GotoKeeps(cfg, Wake(s, u), t, if s.threads[t].NotifyingProducer? then NotifyingConsumer else Idle);
  }

  lemma NotifyAllKeeps(cfg: Config, s: State, t: Tid)
    requires Invariant(cfg, s) && Next(cfg, s, Event(t, NotifyAll)).Some?
    ensures Invariant(cfg, Next(cfg, s, Event(t, NotifyAll)).value)
  {
    var producers := s.threads[t].WakingProducers?;
    WakeAllKeeps(cfg, s, producers);
    GotoKeeps(cfg, WakeAll(s, producers), t, if producers then WakingConsumers else Idle);
  }

  lemma CommitKeeps(cfg: Config, s: State, t: Tid)
    requires Constructible(cfg) && Invariant(cfg, s) && Next(cfg, s, Event(t, Commit)).Some?
    ensures Invariant(cfg, Next(cfg, s, Event(t, Commit)).value)
  {
    var op := s.threads[t].op;
    QueueChangeKeeps(cfg, s, Effect(cfg, s, op), t, AfterCommit(cfg, op));
  }

  lemma NextKeepsInvariant(cfg: Config, s: State, e: Event)
    requires Constructible(cfg) && Invariant(cfg, s) && Next(cfg, s, e).Some?
    ensures Invariant(cfg, Next(cfg, s, e).value)
  {
    var t := e.thread;
    var pc := s.threads[t];
    match e.action
    case Acquire => AcquireKeeps(cfg, s, t, pc.op);
    case Sleep => ReleaseKeeps(cfg, s, t, Asleep(pc.op));
    case ReadFlag =>
      ReleaseKeeps(cfg, s, t, Idle);
      if !s.terminated {
        GotoKeeps(cfg, s, t, Cleared(pc.op));
      }
    case Commit => CommitKeeps(cfg, s, t);
    case Clear =>
      assert s.threads[t := Idle] == s.threads;
      QueueChangeKeeps(cfg, s, s.(queue := []), t, Idle);
    case NotifyOne(u) => NotifyKeeps(cfg, s, t, u);
    case NotifyAll => NotifyAllKeeps(cfg, s, t);
    case SetFlag => GotoKeeps(cfg, s.(terminated := true), t, WakingProducers);
    case BeginTerminate => GotoKeeps(cfg, s, t, Ending);
    case Call(op) => GotoKeeps(cfg, s, t, Entering(op));
    case WakeUp => GotoKeeps(cfg, s, t, Woken(pc.op));
    case Test => GotoKeeps(cfg, s, t, Next(cfg, s, e).value.threads[t]);
  }

  /** The oldest item leaves. */
  lemma RemovalConserves(cfg: Config, s: State, cause: Cause)
    requires Conserved(cfg, s) && s.queue != []
    ensures Conserved(cfg, s.(queue := s.queue[1..], removed := s.removed + [Removal(s.queue[0], cause)]))
  {
    var removed := s.removed + [Removal(s.queue[0], cause)];
    assert Items(removed) == Items(s.removed) + [s.queue[0]];
    assert s.queue == [s.queue[0]] + s.queue[1..];
  }

  lemma AcceptanceConserves(cfg: Config, s: State, x: Item)
    requires Conserved(cfg, s)
    ensures Conserved(cfg, s.(queue := s.queue + [x], accepted := s.accepted + [x]))
  {
    assert cfg.initial + (s.accepted + [x]) == cfg.initial + s.accepted + [x];
  }

  lemma EffectConserves(cfg: Config, s: State, op: Op)
    requires Constructible(cfg) && |s.queue| <= cfg.capacity && !Blocked(cfg, op, s.queue)
    requires Conserved(cfg, s) && DropsAreOld(cfg, s)
    ensures Conserved(cfg, Effect(cfg, s, op)) && DropsAreOld(cfg, Effect(cfg, s, op))
  {
    if op.Pop? {
      RemovalConserves(cfg, s, Popped);
    } else if op.Push? {
      if |s.queue| >= cfg.capacity {
        RemovalConserves(cfg, s, Dropped);
        AcceptanceConserves(cfg, s.(queue := s.queue[1..], removed := s.removed + [Removal(s.queue[0], Dropped)]), op.item);
      } else {
        AcceptanceConserves(cfg, s, op.item);
      }
    }
  }

  lemma NextConserves(cfg: Config, s: State, e: Event)
    requires Constructible(cfg) && Invariant(cfg, s) && Next(cfg, s, e).Some? && !e.action.Clear?
    requires Conserved(cfg, s) && DropsAreOld(cfg, s)
    ensures Conserved(cfg, Next(cfg, s, e).value) && DropsAreOld(cfg, Next(cfg, s, e).value)
  {
    if e.action.Commit? {
      EffectConserves(cfg, s, s.threads[e.thread].op);
    }
  }

  /** In every run without `clearQueue`, under any interleaving. */
  lemma {:induction false} EveryRunConserves(cfg: Config, s: State, es: seq<Event>)
    requires Constructible(cfg) && Invariant(cfg, s) && Conserved(cfg, s) && DropsAreOld(cfg, s)
    requires Exec(cfg, s, es).Some? && forall e <- es :: !e.action.Clear?
    ensures var m := Exec(cfg, s, es).value;
            Invariant(cfg, m) && Conserved(cfg, m) && DropsAreOld(cfg, m)
    decreases |es|
  {
    if es != [] {
      NextKeepsInvariant(cfg, s, es[0]);
      NextConserves(cfg, s, es[0]);
      EveryRunConserves(cfg, Next(cfg, s, es[0]).value, es[1..]);
    }
  }

  lemma StartIsFine(cfg: Config, tids: set<Tid>)
    requires Constructible(cfg)
    ensures var s := Start(cfg, tids); Invariant(cfg, s) && Conserved(cfg, s) && DropsAreOld(cfg, s)
  {
  }

  /** From the constructor on; and a blocking queue never drops anything. */
  lemma EveryRunFromStartConserves(cfg: Config, tids: set<Tid>, es: seq<Event>)
    requires Constructible(cfg) && Exec(cfg, Start(cfg, tids), es).Some? && forall e <- es :: !e.action.Clear?
    ensures var m := Exec(cfg, Start(cfg, tids), es).value;
            && cfg.initial + m.accepted == Items(m.removed) + m.queue && |m.queue| <= cfg.capacity
            && DropsAreOld(cfg, m)
            && (cfg.leak.PushBlocking? ==> forall r <- m.removed :: r.cause.Popped?)
  {
    StartIsFine(cfg, tids);
    EveryRunConserves(cfg, Start(cfg, tids), es);
  }

  // ---------- Who moves ----------

  lemma OneThreadMoves(cfg: Config, s: State, e: Event)
    requires Next(cfg, s, e).Some? && !e.action.NotifyOne? && !e.action.NotifyAll?
    ensures var n := Next(cfg, s, e).value;
            && e.thread in s.threads && e.thread in n.threads
            && n.threads == s.threads[e.thread := n.threads[e.thread]]
  {
  }

  /** A step moves its own thread; another it can only wake. */
  lemma OthersOnlyWake(cfg: Config, s: State, e: Event, t: Tid)
    requires Next(cfg, s, e).Some? && t in Next(cfg, s, e).value.threads && t != e.thread
    ensures t in s.threads
    ensures var pc := Next(cfg, s, e).value.threads[t];
            pc == s.threads[t] || (s.threads[t].Asleep? && pc == Woken(s.threads[t].op))
  {
    if !e.action.NotifyOne? && !e.action.NotifyAll? {
      OneThreadMoves(cfg, s, e);
    }
  }

  // ---------- Nobody sleeps while able to proceed ----------

  ghost function Who(threads: map<Tid, Pc>, p: Pc -> bool): set<Tid> {
    set t | t in threads && p(threads[t])
  }

  lemma CountAfter(threads: map<Tid, Pc>, t: Tid, pc: Pc, p: Pc -> bool)
    requires t in threads
    ensures |Who(threads[t := pc], p)| ==
            |Who(threads, p)| - (if p(threads[t]) then 1 else 0) + (if p(pc) then 1 else 0)
  {
    var before, after := Who(threads, p), Who(threads[t := pc], p);
    var others := before - {t};
    assert after == if p(pc) then others + {t} else others;
    assert before == if p(threads[t]) then others + {t} else others;
  }

  /** The thread is about to look at the queue again, for the consumers or for the producers. */
  predicate Looks(pc: Pc, producer: bool) {
    (pc.Woken? || HoldsMutex(pc)) && pc.op.Push? == producer
  }

  /** The thread still has to notify a consumer, or is a consumer about to look. */
  predicate ForConsumers(pc: Pc) {
    pc.NotifyingProducer? || pc.NotifyingConsumer? || Looks(pc, false)
  }

  predicate ForProducers(pc: Pc) {
    pc.NotifyingProducer? || Looks(pc, true)
  }

  predicate For(producer: bool, pc: Pc) {
    if producer then ForProducers(pc) else ForConsumers(pc)
  }

  ghost function Owed(threads: map<Tid, Pc>, producer: bool): nat {
    |Who(threads, pc => For(producer, pc))|
  }

  ghost predicate Sleeps(threads: map<Tid, Pc>, producer: bool) {
    exists u <- threads :: threads[u].Asleep? && threads[u].op.Push? == producer
  }

  /** What a sleeper of this side waits for. */
  function Available(cfg: Config, queue: seq<Item>, producer: bool): int {
    if producer then cfg.capacity - |queue| else |queue|
  }

  /** If a consumer sleeps, every item in the queue is owed to some notification or woken consumer;
      if a producer sleeps, so is every free slot. */
  ghost predicate NobodyStranded(cfg: Config, s: State, producer: bool) {
    Sleeps(s.threads, producer) ==>
      && (producer ==> cfg.leak.PushBlocking?)
      && Available(cfg, s.queue, producer) <= Owed(s.threads, producer)
  }

  predicate PushingOrPopping(pc: Pc) {
    match pc
    case Idle => true
    case NotifyingProducer => true
    case NotifyingConsumer => true
    case Ending => false
    case WakingProducers => false
    case WakingConsumers => false
    case _ => !pc.op.Front?
  }

  /** The queue is only pushed to and popped from, and terminate has not been called. */
  ghost predicate Working(cfg: Config, s: State) {
    && Invariant(cfg, s)
    && !s.terminated
    && (forall t <- s.threads :: PushingOrPopping(s.threads[t]))
    && (forall t <- s.threads :: s.threads[t].Sleepy? && s.threads[t].op.Push? ==> cfg.leak.PushBlocking?)
  }

  /** Pushes and pops, and for a leaky queue also `clearQueue`. */
  predicate PushOrPop(cfg: Config, e: Event) {
    (e.action.Clear? ==> cfg.leak.Leaky?) && !e.action.BeginTerminate? && e.action != Call(Front)
  }

  lemma OwedAfter(threads: map<Tid, Pc>, t: Tid, pc: Pc, producer: bool)
    requires t in threads
    ensures Owed(threads[t := pc], producer) ==
            Owed(threads, producer) - (if For(producer, threads[t]) then 1 else 0)
            + (if For(producer, pc) then 1 else 0)
    ensures Sleeps(threads[t := pc], producer) ==>
              (pc.Asleep? && pc.op.Push? == producer) || Sleeps(threads, producer)
  {
    CountAfter(threads, t, pc, pc => For(producer, pc));
  }

  /** One thread moves, and the queue changes at most as its move says. */
  lemma MoveStrandsNobody(cfg: Config, s: State, m: State, t: Tid, producer: bool)
    requires t in s.threads && t in m.threads && m.threads == s.threads[t := m.threads[t]]
    requires NobodyStranded(cfg, s, producer)
    requires var pc := m.threads[t];
             if pc.Asleep? && pc.op.Push? == producer then
               (producer ==> cfg.leak.PushBlocking?) && Available(cfg, m.queue, producer) <= 0
             else if producer && cfg.leak.Leaky? then
               true
             else
               Available(cfg, m.queue, producer) - (if For(producer, pc) then 1 else 0) <=
               Available(cfg, s.queue, producer) - (if For(producer, s.threads[t]) then 1 else 0)
    ensures NobodyStranded(cfg, m, producer)
  {
    OwedAfter(s.threads, t, m.threads[t], producer);
  }

  lemma NotifyStrandsNobody(cfg: Config, s: State, t: Tid, u: Option<Tid>, producer: bool)
    requires Working(cfg, s) && NobodyStranded(cfg, s, producer) && Next(cfg, s, Event(t, NotifyOne(u))).Some?
    ensures NobodyStranded(cfg, Next(cfg, s, Event(t, NotifyOne(u))).value, producer)
  {
    var m := Next(cfg, s, Event(t, NotifyOne(u))).value;
    OwedAfter(Wake(s, u).threads, t, m.threads[t], producer);
    if u.Some? {
      OwedAfter(s.threads, u.value, Woken(s.threads[u.value].op), producer);
    }
  }

  lemma NextStrandsNobody(cfg: Config, s: State, e: Event, producer: bool)
    requires Constructible(cfg) && Working(cfg, s) && PushOrPop(cfg, e) && Next(cfg, s, e).Some?
    requires NobodyStranded(cfg, s, producer)
    ensures NobodyStranded(cfg, Next(cfg, s, e).value, producer)
  {
    if e.action.NotifyOne? {
      NotifyStrandsNobody(cfg, s, e.thread, e.action.sleeper, producer);
    } else {
      assert PushingOrPopping(s.threads[e.thread]);
      MoveStrandsNobody(cfg, s, Next(cfg, s, e).value, e.thread, producer);
    }
  }

  lemma OwnStepWorks(cfg: Config, s: State, e: Event)
    requires Working(cfg, s) && PushOrPop(cfg, e) && Next(cfg, s, e).Some?
    ensures var n := Next(cfg, s, e).value;
            && !n.terminated && e.thread in n.threads
            && PushingOrPopping(n.threads[e.thread])
            && (n.threads[e.thread].Sleepy? && n.threads[e.thread].op.Push? ==> cfg.leak.PushBlocking?)
  {
    assert PushingOrPopping(s.threads[e.thread]);
  }

  lemma NextWorks(cfg: Config, s: State, e: Event)
    requires Constructible(cfg) && Working(cfg, s) && PushOrPop(cfg, e) && Next(cfg, s, e).Some?
    ensures Working(cfg, Next(cfg, s, e).value)
  {
    var n := Next(cfg, s, e).value;
    NextKeepsInvariant(cfg, s, e);
    OwnStepWorks(cfg, s, e);
    forall t | t in n.threads
      ensures PushingOrPopping(n.threads[t])
      ensures n.threads[t].Sleepy? && n.threads[t].op.Push? ==> cfg.leak.PushBlocking?
    {
      if t != e.thread {
        OthersOnlyWake(cfg, s, e, t);
        assert PushingOrPopping(s.threads[t]);
      }
    }
  }

  lemma {:induction false} EveryRunStrandsNobody(cfg: Config, s: State, es: seq<Event>)
    requires Constructible(cfg) && Working(cfg, s)
    requires NobodyStranded(cfg, s, false) && NobodyStranded(cfg, s, true)
    requires Exec(cfg, s, es).Some? && forall e <- es :: PushOrPop(cfg, e)
    ensures var m := Exec(cfg, s, es).value;
            Working(cfg, m) && NobodyStranded(cfg, m, false) && NobodyStranded(cfg, m, true)
    decreases |es|
  {
    if es != [] {
      NextWorks(cfg, s, es[0]);
      NextStrandsNobody(cfg, s, es[0], false);
      NextStrandsNobody(cfg, s, es[0], true);
      EveryRunStrandsNobody(cfg, Next(cfg, s, es[0]).value, es[1..]);
    }
  }

  /** No notification is under way and no woken thread has still to look. */
  ghost predicate AtRest(s: State) {
    forall t <- s.threads :: s.threads[t].Idle? || s.threads[t].Entering? || s.threads[t].Asleep?
  }

  /** At rest, and some thread sleeps although it could proceed. */
  ghost predicate Stranded(cfg: Config, s: State) {
    AtRest(s) && exists t <- s.threads :: s.threads[t].Asleep? && !Blocked(cfg, s.threads[t].op, s.queue)
  }

  /** At rest, consumers sleep only on an empty queue and producers only on a full one. */
  lemma SleepersMustWait(cfg: Config, tids: set<Tid>, es: seq<Event>)
    requires Constructible(cfg) && Exec(cfg, Start(cfg, tids), es).Some? && forall e <- es :: PushOrPop(cfg, e)
    ensures !Stranded(cfg, Exec(cfg, Start(cfg, tids), es).value)
    ensures var m := Exec(cfg, Start(cfg, tids), es).value;
            AtRest(m) ==> forall t <- m.threads | m.threads[t].Asleep? ::
              if m.threads[t].op.Push? then cfg.leak.PushBlocking? && |m.queue| == cfg.capacity else m.queue == []
  {
    var s, m := Start(cfg, tids), Exec(cfg, Start(cfg, tids), es).value;
    EveryRunStrandsNobody(cfg, s, es);
    if AtRest(m) {
      assert Who(m.threads, pc => For(false, pc)) == {};
      assert Who(m.threads, pc => For(true, pc)) == {};
      forall t | t in m.threads && m.threads[t].Asleep? ensures Blocked(cfg, m.threads[t].op, m.queue) {
        assert Sleeps(m.threads, m.threads[t].op.Push?);
      }
    }
  }

  // ---------- A queue with a single consumer ----------

  predicate Popping(pc: Pc) {
    (pc.Entering? || pc.Asleep? || pc.Woken? || HoldsMutex(pc)) && pc.op.Pop?
  }

  /** No thread but `me` takes anything from the queue. */
  ghost predicate OnlyConsumer(s: State, me: Tid) {
    forall t <- s.threads :: Popping(s.threads[t]) ==> t == me
  }

  /** A step of `me` on its way to a pop, or of another thread that does not begin to pop. */
  predicate LeavesItems(me: Tid, e: Event) {
    && !e.action.Clear?
    && if e.thread == me then !e.action.Commit? && (e.action.Call? ==> e.action.op.Pop?) else e.action != Call(Pop)
  }

  /** Not on the way to anything but a pop, and neither asleep nor bound to sleep. */
  predicate PopsAwake(pc: Pc) {
    if pc.Entering? || pc.Woken? || HoldsMutex(pc) then pc.op.Pop? && !pc.Sleepy? else !pc.Asleep?
  }

  lemma StaysAwake(cfg: Config, s: State, me: Tid, e: Event)
    requires me in s.threads && PopsAwake(s.threads[me]) && s.queue != []
    requires LeavesItems(me, e) && Next(cfg, s, e).Some?
    ensures var n := Next(cfg, s, e).value; me in n.threads && PopsAwake(n.threads[me])
  {
  }

  lemma StepLeavesItems(cfg: Config, s: State, me: Tid, e: Event)
    requires OnlyConsumer(s, me) && LeavesItems(me, e) && Next(cfg, s, e).Some?
    ensures s.queue != [] ==> Next(cfg, s, e).value.queue != []
  {
  }

  lemma OnlyCallsStartPopping(cfg: Config, s: State, e: Event)
    requires Next(cfg, s, e).Some? && e.action != Call(Pop) && e.thread in Next(cfg, s, e).value.threads
    ensures e.thread in s.threads
    ensures Popping(Next(cfg, s, e).value.threads[e.thread]) ==> Popping(s.threads[e.thread])
  {
  }

  lemma StaysOnlyConsumer(cfg: Config, s: State, me: Tid, e: Event)
    requires OnlyConsumer(s, me) && LeavesItems(me, e) && Next(cfg, s, e).Some?
    ensures OnlyConsumer(Next(cfg, s, e).value, me)
  {
    var n := Next(cfg, s, e).value;
    forall t | t in n.threads && Popping(n.threads[t]) ensures t == me {
      if t != e.thread {
        OthersOnlyWake(cfg, s, e, t);
      } else if e.action != Call(Pop) {
        OnlyCallsStartPopping(cfg, s, e);
      }
    }
  }

  /** An item that the only consumer has seen is not gone when it comes to pop, however many pushes
      get in between; at no point of its way there does it sleep. */
  lemma {:induction false} SeenItemStays(cfg: Config, s: State, me: Tid, es: seq<Event>)
    requires OnlyConsumer(s, me) && s.queue != [] && Exec(cfg, s, es).Some?
    requires me in s.threads && PopsAwake(s.threads[me])
    requires forall e <- es :: LeavesItems(me, e)
    ensures var m := Exec(cfg, s, es).value;
            && OnlyConsumer(m, me) && m.queue != []
            && me in m.threads && !m.threads[me].Sleepy? && !m.threads[me].Asleep?
    decreases |es|
  {
    if es != [] {
      StepLeavesItems(cfg, s, me, es[0]);
      StaysOnlyConsumer(cfg, s, me, es[0]);
      StaysAwake(cfg, s, me, es[0]);
      SeenItemStays(cfg, Next(cfg, s, es[0]).value, me, es[1..]);
    }
  }

  /** The item removed last was popped, or its drop made room for an item that is still there. */
  ghost predicate LastWasPopped(s: State) {
    s.queue == [] && s.removed != [] ==> s.removed[|s.removed| - 1].cause.Popped?
  }

  lemma {:induction false} EveryRunEndsPopped(cfg: Config, s: State, es: seq<Event>)
    requires LastWasPopped(s) && Exec(cfg, s, es).Some? && forall e <- es :: !e.action.Clear?
    ensures LastWasPopped(Exec(cfg, s, es).value)
    decreases |es|
  {
    if es != [] {
      EveryRunEndsPopped(cfg, Next(cfg, s, es[0]).value, es[1..]);
    }
  }

  /** With room for one item, whatever is in the queue is the newest item accepted. */
  lemma OneSlotHoldsTheNewest(cfg: Config, s: State)
    requires cfg.capacity == 1 && Invariant(cfg, s) && Conserved(cfg, s) && s.queue != []
    ensures var all := cfg.initial + s.accepted; all != [] && s.queue == [all[|all| - 1]]
  {
    var all := Items(s.removed) + s.queue;
    assert all[|all| - 1] == s.queue[0];
  }

  /** What a latched getter returns is the newest item accepted: under every interleaving, when the
      queue is empty that is the item popped last, whatever the capacity; and when it is not empty,
      that is the item about to be popped, if there is room for only one. */
  lemma NewestIsTakenOrNext(cfg: Config, tids: set<Tid>, es: seq<Event>)
    requires Constructible(cfg) && Exec(cfg, Start(cfg, tids), es).Some? && forall e <- es :: !e.action.Clear?
    ensures var m := Exec(cfg, Start(cfg, tids), es).value;
            var all := cfg.initial + m.accepted;
            && (m.queue == [] && all != [] ==>
                  m.removed != [] && m.removed[|m.removed| - 1] == Removal(all[|all| - 1], Popped))
            && (m.queue != [] && cfg.capacity == 1 ==> all != [] && m.queue == [all[|all| - 1]])
  {
    var s, m := Start(cfg, tids), Exec(cfg, Start(cfg, tids), es).value;
    StartIsFine(cfg, tids);
    EveryRunConserves(cfg, s, es);
    EveryRunEndsPopped(cfg, s, es);
    var all := Items(m.removed) + m.queue;
    if m.queue == [] && all != [] {
      assert all[|all| - 1] == m.removed[|m.removed| - 1].item;
    } else if m.queue != [] && cfg.capacity == 1 {
      OneSlotHoldsTheNewest(cfg, m);
    }
  }

  // ---------- After terminate has set the flag ----------

  /** Queue and histories, as against who is where. */
  predicate SameContents(s: State, m: State) {
    m.queue == s.queue && m.accepted == s.accepted && m.removed == s.removed
  }

  ghost predicate NobodyCleared(s: State) {
    forall t <- s.threads :: !s.threads[t].Cleared?
  }

  /** `t` read the flag before it was set, and still holds the mutex. */
  ghost predicate PastTheCheck(s: State, t: Tid) {
    t in s.threads && s.threads[t].Cleared?
  }

  lemma NextSettles(cfg: Config, s: State, e: Event)
    requires s.terminated && NobodyCleared(s) && Next(cfg, s, e).Some? && !e.action.Clear?
    ensures var n := Next(cfg, s, e).value; n.terminated && NobodyCleared(n) && SameContents(s, n)
  {
  }

  lemma {:induction false} ContentsSettle(cfg: Config, s: State, es: seq<Event>)
    requires s.terminated && NobodyCleared(s)
    requires Exec(cfg, s, es).Some? && forall e <- es :: !e.action.Clear?
    ensures SameContents(s, Exec(cfg, s, es).value)
    decreases |es|
  {
    if es != [] {
      NextSettles(cfg, s, es[0]);
      ContentsSettle(cfg, Next(cfg, s, es[0]).value, es[1..]);
    }
  }

  lemma OtherStepsSettle(cfg: Config, s: State, e: Event)
    requires Next(cfg, s, e).Some? && s.terminated && !e.action.Clear? && !e.action.Commit?
    ensures var n := Next(cfg, s, e).value;
            && n.terminated && SameContents(s, n)
            && forall t :: PastTheCheck(n, t) ==> PastTheCheck(s, t) && n.threads[t] == s.threads[t]
  {
  }

  /** One push or pop of a thread past its check takes `s` to the contents of `m`. */
  ghost predicate OneMore(cfg: Config, s: State, m: State)
    requires Constructible(cfg) && Invariant(cfg, s)
  {
    exists t | t in s.threads :: PastTheCheck(s, t) && SameContents(Effect(cfg, s, s.threads[t].op), m)
  }

  /** Only the thread that is already past its check can still push or pop, and only once. */
  lemma {:induction false} AtMostOneMore(cfg: Config, s: State, es: seq<Event>)
    requires Constructible(cfg) && Invariant(cfg, s) && s.terminated
    requires Exec(cfg, s, es).Some? && forall e <- es :: !e.action.Clear?
    ensures SameContents(s, Exec(cfg, s, es).value) || OneMore(cfg, s, Exec(cfg, s, es).value)
    decreases |es|
  {
    if es != [] {
      var e, n, m := es[0], Next(cfg, s, es[0]).value, Exec(cfg, s, es).value;
      NextKeepsInvariant(cfg, s, e);
      if e.action.Commit? {
        ContentsSettle(cfg, n, es[1..]);
        assert PastTheCheck(s, e.thread);
      } else {
        OtherStepsSettle(cfg, s, e);
        AtMostOneMore(cfg, n, es[1..]);
        if OneMore(cfg, n, m) {
          var t :| PastTheCheck(n, t) && SameContents(Effect(cfg, n, n.threads[t].op), m);
          assert PastTheCheck(s, t) && SameContents(Effect(cfg, s, s.threads[t].op), m);
        }
      }
    }
  }
}

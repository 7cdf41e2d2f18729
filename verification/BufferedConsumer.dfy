/** The queue as an object, one call at a time, and the latched getter of a buffered consumer, whose
    emptiness test and pop are separate critical sections.
 */
module BufferedConsumer {
  import opened Wrappers
  import opened LockQueue
  import opened LockQueueCalls

  function QueueAfter(cfg: Config, queue: seq<Item>, op: Op): seq<Item>
    requires Constructible(cfg) && !Blocked(cfg, op, queue)
  {
    Effect(cfg, State(queue, false, None, map[], [], []), op).queue
  }

  /** A push leaves the newest items, as many as there is room for; a pop takes the oldest. */
  lemma QueueAfterIs(cfg: Config, queue: seq<Item>, op: Op)
    requires Constructible(cfg) && |queue| <= cfg.capacity && !Blocked(cfg, op, queue)
    ensures match op
            case Push(x) =>
              var all := queue + [x];
              QueueAfter(cfg, queue, op) == if |all| <= cfg.capacity then all else all[|all| - cfg.capacity..]
            case Pop => queue != [] && queue == [queue[0]] + QueueAfter(cfg, queue, op)
            case Front => queue != [] && QueueAfter(cfg, queue, op) == queue
  {
  }

  function OutcomeOf(cfg: Config, queue: seq<Item>, terminated: bool, op: Op): Outcome<Item> {
    if terminated then Throws
    else if Blocked(cfg, op, queue) then Waits
    else if op.Push? then Completes
    else Returns(queue[0])
  }

  /** The object agrees with the step system: a call that is not interrupted either changes the
      queue as `QueueAfter` says, or falls asleep, or ends in an exception with nothing changed. */
  lemma CallAlone(cfg: Config, s: State, t: Tid, op: Op)
    requires Constructible(cfg) && t in s.threads && s.threads[t].Idle? && s.holder == None
    ensures match OutcomeOf(cfg, s.queue, s.terminated, op)
            case Throws => Exec(cfg, s, Enter(t, op) + [Event(t, ReadFlag)]) == Some(s)
            case Waits => Exec(cfg, s, Enter(t, op) + [Event(t, Sleep)]) == Some(Goto(s, t, Asleep(op)))
            case _ =>
              var m := Exec(cfg, s, Enter(t, op) + ([Event(t, ReadFlag)] + [Event(t, Commit)]));
              m.Some? && m.value.queue == QueueAfter(cfg, s.queue, op) && m.value.holder == None
              && m.value.threads == s.threads[t := AfterCommit(cfg, op)]
  {
    match OutcomeOf(cfg, s.queue, s.terminated, op) {
      case Throws =>
        Enters(cfg, s, t, op);
        ExecStep(cfg, s, Enter(t, op), Event(t, ReadFlag));
        LastPcCounts(s.threads, t, Passed(op), Idle);
        assert s.threads[t := Idle] == s.threads;
      case Waits => FallsAsleep(cfg, s, t, op);
      case _ => RunsThrough(cfg, s, t, op);
    }
  }

  // ---------- The queue and what happens to it ----------

  /** The queue with all items it has ever held, the initial ones first. */
  datatype View = View(queue: seq<Item>, terminated: bool, accepted: seq<Item>)

  /** What another thread does, if it gets to do it: a push may also block or throw. */
  datatype Other = Pushes(item: Item) | Terminates

  function Disturbed(cfg: Config, v: View, other: Other): View
    requires Constructible(cfg)
  {
    match other
    case Terminates => v.(terminated := true)
    case Pushes(x) =>
      if OutcomeOf(cfg, v.queue, v.terminated, Op.Push(x)).Completes?
      then v.(queue := QueueAfter(cfg, v.queue, Op.Push(x)), accepted := v.accepted + [x])
      else v
  }

  function DisturbedAll(cfg: Config, v: View, others: seq<Other>): View
    requires Constructible(cfg)
  {
    if others == [] then v
    else Disturbed(cfg, DisturbedAll(cfg, v, others[..|others| - 1]), others[|others| - 1])
  }

  class BoundedQueue {
    const cfg: Config
    var queue: seq<Item>
    var terminated: bool
    ghost var accepted: seq<Item>

    ghost predicate Valid()
      reads this
    {
      Constructible(cfg) && |queue| <= cfg.capacity
    }

    ghost function Now(): View
      reads this
    {
      View(queue, terminated, accepted)
    }

    constructor (cfg: Config)
      requires Constructible(cfg)
      ensures Valid() && this.cfg == cfg && Now() == View(cfg.initial, false, cfg.initial)
    {
      this.cfg := cfg;
      queue := cfg.initial;
      terminated := false;
      accepted := cfg.initial;
    }

    method Push(x: Item) returns (o: Outcome<Item>)
      requires Valid()
      modifies this`queue, this`accepted
      ensures Valid() && o == OutcomeOf(cfg, old(queue), terminated, Op.Push(x))
      ensures queue == if o.Completes? then QueueAfter(cfg, old(queue), Op.Push(x)) else old(queue)
      ensures Now() == Disturbed(cfg, old(Now()), Pushes(x))
    {
      if terminated {
        return Throws;
      }
      if cfg.leak.PushBlocking? && |queue| >= cfg.capacity {
        return Waits;
      }
      if |queue| >= cfg.capacity {
        queue := queue[1..];
      }
      queue, accepted := queue + [x], accepted + [x];
      return Completes;
    }

    method Pop() returns (o: Outcome<Item>)
      requires Valid()
      modifies this`queue
      ensures Valid() && o == OutcomeOf(cfg, old(queue), terminated, Op.Pop)
      ensures queue == if o.Returns? then QueueAfter(cfg, old(queue), Op.Pop) else old(queue)
    {
      if terminated {
        return Throws;
      }
      if queue == [] {
        return Waits;
      }
      o := Returns(queue[0]);
      queue := queue[1..];
    }

    method Terminate()
      requires Valid()
      modifies this`terminated
      ensures Valid() && terminated && Now() == Disturbed(cfg, old(Now()), Terminates)
    {
      terminated := true;
    }
  }

  // ---------- The latched getter ----------

  datatype Getting = Getting(outcome: Outcome<Item>, view: View, latch: Option<Item>)

  /** A get, with what other threads do between its test and its pop. If it found nothing new at its
      test it returns the last value again, even if terminated; otherwise it pops. */
  function Got(cfg: Config, v: View, latch: Option<Item>, meanwhile: seq<Other>): Getting
    requires Constructible(cfg)
  {
    var now := DisturbedAll(cfg, v, meanwhile);
    if latch.Some? && v.queue == [] then Getting(Returns(latch.value), now, latch) else
    var o := OutcomeOf(cfg, now.queue, now.terminated, Pop);
    if o.Returns?
    then Getting(o, now.(queue := now.queue[1..]), Some(now.queue[0]))
    else Getting(o, now, latch)
  }

  /** The queue as the getter last looked at it: at its test if it does not pop, else at its pop. */
  function LastLook(cfg: Config, v: View, latch: Option<Item>, meanwhile: seq<Other>): View
    requires Constructible(cfg)
  {
    if latch.Some? && v.queue == [] then v else DisturbedAll(cfg, v, meanwhile)
  }

  lemma {:induction false} PushesIntoOneSlot(cfg: Config, v: View, others: seq<Other>)
    requires Constructible(cfg) && cfg.capacity == 1 && cfg.leak.Leaky? && |v.queue| <= 1 && !v.terminated
    requires others != [] && forall o <- others :: o.Pushes?
    ensures var now := DisturbedAll(cfg, v, others);
            !now.terminated && now.queue == [others[|others| - 1].item]
  {
    if |others| > 1 {
      PushesIntoOneSlot(cfg, v, others[..|others| - 1]);
    } else {
      assert others[..0] == [];
    }
  }

  /** From a leaky queue with room for one item, a get that pops returns the last push before the pop. */
  lemma OneSlotKeepsTheLast(cfg: Config, v: View, latch: Option<Item>, meanwhile: seq<Other>)
    requires Constructible(cfg) && cfg.capacity == 1 && cfg.leak.Leaky? && |v.queue| <= 1 && !v.terminated
    requires meanwhile != [] && forall o <- meanwhile :: o.Pushes?
    requires latch.None? || v.queue != []
    ensures var last := meanwhile[|meanwhile| - 1].item;
            var got := Got(cfg, v, latch, meanwhile);
            got.outcome == Returns(last) && got.latch == Some(last) && got.view.queue == []
  {
    PushesIntoOneSlot(cfg, v, meanwhile);
  }

  lemma {:induction false} StaysTerminated(cfg: Config, v: View, others: seq<Other>)
    requires Constructible(cfg) && v.terminated
    ensures DisturbedAll(cfg, v, others).terminated && DisturbedAll(cfg, v, others).queue == v.queue
  {
    if others != [] {
      StaysTerminated(cfg, v, others[..|others| - 1]);
    }
  }

  /** After `terminate` a get still returns the last value if there is one and the queue is empty, and
      in no other case; otherwise it throws. */
  lemma TerminatedGet(cfg: Config, v: View, latch: Option<Item>, meanwhile: seq<Other>)
    requires Constructible(cfg) && v.terminated
    ensures Got(cfg, v, latch, meanwhile).outcome.Returns? <==> latch.Some? && v.queue == []
    ensures !Got(cfg, v, latch, meanwhile).outcome.Returns? ==> Got(cfg, v, latch, meanwhile).outcome == Throws
    ensures Got(cfg, v, latch, meanwhile).view.queue == v.queue && Got(cfg, v, latch, meanwhile).latch == latch
  {
    StaysTerminated(cfg, v, meanwhile);
  }

  class LatchedGetter {
    var latch: Option<Item>

    constructor ()
      ensures latch == None
    {
      latch := None;
    }

    method Get(q: BoundedQueue, meanwhile: seq<Other>) returns (o: Outcome<Item>)
      requires q.Valid()
      modifies this, q`queue, q`terminated, q`accepted
      ensures q.Valid()
      ensures Getting(o, q.Now(), latch) == Got(q.cfg, old(q.Now()), old(latch), meanwhile)
      ensures old(latch).Some? ==> !o.Waits?
    {
      var look := latch.Some? && q.queue == [];
      ghost var seen := q.Now();
      for i := 0 to |meanwhile|
        invariant q.Valid() && latch == old(latch)
        invariant q.Now() == DisturbedAll(q.cfg, seen, meanwhile[..i])
      {
        assert meanwhile[..i + 1][..i] == meanwhile[..i];
        match meanwhile[i]
        case Pushes(x) => var _ := q.Push(x);
        case Terminates => q.Terminate();
      }
      assert meanwhile[..|meanwhile|] == meanwhile;
      if look {
        return Returns(latch.value);
      }
      OthersKeep(q.cfg, seen, meanwhile);
      o := q.Pop();
      if o.Returns? {
        latch := Some(o.value);
      }
    }
  }

  // ---------- Whole runs of a latched consumer ----------

  datatype Command = Meddle(other: Other) | Get(meanwhile: seq<Other>)

  /** How a get ended, whether it popped, what had been accepted as of its last look at the queue, and
      which of that it returned. */
  datatype Result = Result(outcome: Outcome<Item>, popped: bool, known: seq<Item>, index: int)

  datatype Session = Session(view: View, latch: Option<Item>, results: seq<Result>)

  function Next(cfg: Config, s: Session, cmd: Command): Session
    requires Constructible(cfg)
  {
    match cmd
    case Meddle(other) => s.(view := Disturbed(cfg, s.view, other))
    case Get(meanwhile) =>
      var got := Got(cfg, s.view, s.latch, meanwhile);
      var look := LastLook(cfg, s.view, s.latch, meanwhile);
      var popped := s.latch.None? || s.view.queue != [];
      var index := |look.accepted| - (if popped then |look.queue| else 1);
      Session(got.view, got.latch, s.results + [Result(got.outcome, popped, look.accepted, index)])
  }

  function Run(cfg: Config, s: Session, cmds: seq<Command>): Session
    requires Constructible(cfg)
  {
    if cmds == [] then s else Next(cfg, Run(cfg, s, cmds[..|cmds| - 1]), cmds[|cmds| - 1])
  }

  function Outcomes(results: seq<Result>): seq<Outcome<Item>> {
    seq(|results|, i requires 0 <= i < |results| => results[i].outcome)
  }

  /** The run as queue and getter carry it out. A get that waits leaves everything as it is, and its
      pop comes with a later get. */
  method Serve(q: BoundedQueue, getter: LatchedGetter, cmds: seq<Command>) returns (outcomes: seq<Outcome<Item>>)
    requires q.Valid()
    modifies q`queue, q`terminated, q`accepted, getter
    ensures q.Valid()
    ensures var s := Run(q.cfg, Session(old(q.Now()), old(getter.latch), []), cmds);
            q.Now() == s.view && getter.latch == s.latch && outcomes == Outcomes(s.results)
  {
    outcomes := [];
    for i := 0 to |cmds|
      invariant q.Valid()
      invariant var s := Run(q.cfg, Session(old(q.Now()), old(getter.latch), []), cmds[..i]);
                q.Now() == s.view && getter.latch == s.latch && outcomes == Outcomes(s.results)
    {
      assert cmds[..i + 1][..i] == cmds[..i];
      match cmds[i]
      case Meddle(Pushes(x)) => var _ := q.Push(x);
      case Meddle(Terminates) => q.Terminate();
      case Get(meanwhile) =>
        var o := getter.Get(q, meanwhile);
        outcomes := outcomes + [o];
    }
    assert cmds[..|cmds|] == cmds;
  }

  /** How many of the accepted items are no longer in the queue. */
  function Read(v: View): int {
    |v.accepted| - |v.queue|
  }

  /** The queue holds the newest of the accepted items. */
  ghost predicate HoldsNewest(cfg: Config, v: View) {
    |v.queue| <= cfg.capacity && Read(v) >= 0 && v.queue == v.accepted[Read(v)..]
  }

  /** What happens meanwhile never empties the queue nor brings anything back into it. */
  ghost predicate Follows(cfg: Config, v: View, now: View) {
    && (v.queue != [] ==> now.queue != [])
    && (HoldsNewest(cfg, v) ==> HoldsNewest(cfg, now) && Read(now) >= Read(v))
    && (now.queue == [] ==> now.accepted == v.accepted)
  }

  lemma OtherKeeps(cfg: Config, v: View, other: Other)
    requires Constructible(cfg)
    ensures Follows(cfg, v, Disturbed(cfg, v, other))
  {
  }

  lemma {:induction false} OthersKeep(cfg: Config, v: View, others: seq<Other>)
    requires Constructible(cfg)
    ensures Follows(cfg, v, DisturbedAll(cfg, v, others))
  {
    if others != [] {
      var before := DisturbedAll(cfg, v, others[..|others| - 1]);
      OthersKeep(cfg, v, others[..|others| - 1]);
      OtherKeeps(cfg, before, others[|others| - 1]);
    }
  }

  /** The result of a get that returns something: the item at `index` of what was accepted; a repeated
      value is the newest, and so is every value if there is room for only one item. */
  ghost predicate GoodResult(cfg: Config, r: Result) {
    r.outcome.Returns? ==>
      && 0 <= r.index < |r.known| && r.outcome.value == r.known[r.index]
      && (!r.popped || cfg.capacity == 1 ==> r.index == |r.known| - 1)
  }

  /** Nothing is returned out of order, and only a get that does not pop returns an item again. */
  ghost predicate InOrder(results: seq<Result>) {
    forall i, j | 0 <= i < j < |results| && results[i].outcome.Returns? ::
      && !results[j].outcome.Waits?
      && (results[j].outcome.Returns? ==>
            if results[j].popped then results[i].index < results[j].index else results[i].index <= results[j].index)
  }

  lemma PopTakesTheOldest(cfg: Config, v: View)
    requires HoldsNewest(cfg, v) && v.queue != []
    ensures var w := v.(queue := v.queue[1..]); HoldsNewest(cfg, w) && Read(w) == Read(v) + 1
    ensures 0 <= Read(v) < |v.accepted| && v.queue[0] == v.accepted[Read(v)]
    ensures cfg.capacity == 1 || |v.queue| == 1 ==> Read(v) == |v.accepted| - 1
  {
  }

  /** When there is nothing unread, the latch holds the newest item. */
  ghost predicate LatchHoldsNewest(s: Session) {
    && (s.latch.Some? ==> s.view.accepted != [])
    && (s.view.queue == [] && s.view.accepted != [] ==> s.latch == Some(s.view.accepted[|s.view.accepted| - 1]))
  }

  /** A get that finds nothing new repeats the newest item. */
  lemma RepeatKeeps(cfg: Config, s: Session, meanwhile: seq<Other>)
    requires Constructible(cfg) && HoldsNewest(cfg, s.view) && LatchHoldsNewest(s)
    requires s.latch.Some? && s.view.queue == []
    ensures var n := Next(cfg, s, Get(meanwhile));
            var r := n.results[|s.results|];
            && HoldsNewest(cfg, n.view) && LatchHoldsNewest(n) && Read(n.view) >= Read(s.view)
            && r.outcome.Returns? && !r.popped && GoodResult(cfg, r) && n.latch.Some?
            && r.index == Read(s.view) - 1
  {
    OthersKeep(cfg, s.view, meanwhile);
  }

  lemma PopKeeps(cfg: Config, s: Session, meanwhile: seq<Other>)
    requires Constructible(cfg) && HoldsNewest(cfg, s.view) && LatchHoldsNewest(s)
    requires s.latch.None? || s.view.queue != []
    ensures var n := Next(cfg, s, Get(meanwhile));
            var r := n.results[|s.results|];
            && HoldsNewest(cfg, n.view) && LatchHoldsNewest(n) && Read(n.view) >= Read(s.view)
            && r.popped && GoodResult(cfg, r) && (s.latch.Some? ==> !r.outcome.Waits? && n.latch.Some?)
            && (r.outcome.Returns? ==> n.latch.Some? && Read(s.view) <= r.index < Read(n.view))
  {
    OthersKeep(cfg, s.view, meanwhile);
    var now := DisturbedAll(cfg, s.view, meanwhile);
    if now.queue != [] {
      PopTakesTheOldest(cfg, now);
    }
  }

  /** What the results so far say about the state. */
  ghost predicate ResultsRead(s: Session) {
    forall r <- s.results :: r.outcome.Returns? ==> s.latch.Some? && r.index < Read(s.view)
  }

  lemma OneMoreResult(cfg: Config, s: Session, n: Session, r: Result)
    requires ResultsRead(s) && InOrder(s.results) && n.results == s.results + [r]
    requires s.latch.Some? ==> n.latch.Some? && !r.outcome.Waits?
    requires Read(n.view) >= Read(s.view)
    requires r.outcome.Returns? ==> n.latch.Some? && r.index < Read(n.view)
                                    && if r.popped then Read(s.view) <= r.index else r.index == Read(s.view) - 1
    ensures ResultsRead(n) && InOrder(n.results)
  {
    var m := |s.results|;
    assert forall i | 0 <= i < m :: n.results[i] == s.results[i] && s.results[i] in s.results;
  }

  /** What every run of a latched consumer keeps. */
  ghost predicate Latching(cfg: Config, s: Session) {
    && HoldsNewest(cfg, s.view) && LatchHoldsNewest(s)
    && (forall r <- s.results :: GoodResult(cfg, r))
    && ResultsRead(s) && InOrder(s.results)
  }

  lemma NextLatches(cfg: Config, s: Session, cmd: Command)
    requires Constructible(cfg) && Latching(cfg, s)
    ensures Latching(cfg, Next(cfg, s, cmd))
  {
    match cmd
    case Meddle(other) =>
      OtherKeeps(cfg, s.view, other);
    case Get(meanwhile) =>
      var n := Next(cfg, s, cmd);
      if s.latch.Some? && s.view.queue == [] {
        RepeatKeeps(cfg, s, meanwhile);
      } else {
        PopKeeps(cfg, s, meanwhile);
      }
      OneMoreResult(cfg, s, n, n.results[|s.results|]);
  }

  /** In every run of pushes, `terminate` and gets, with pushes also inside the gets: a get returns the
      oldest unread item or, if there is none, the newest item again; with room for one item it always
      returns the newest item accepted as of its last look; and it never waits after its first value. */
  lemma {:induction false} EveryRunLatches(cfg: Config, cmds: seq<Command>)
    requires Constructible(cfg)
    ensures Latching(cfg, Run(cfg, Session(View(cfg.initial, false, cfg.initial), None, []), cmds))
  {
    if cmds != [] {
      EveryRunLatches(cfg, cmds[..|cmds| - 1]);
      NextLatches(cfg, Run(cfg, Session(View(cfg.initial, false, cfg.initial), None, []), cmds[..|cmds| - 1]),
                  cmds[|cmds| - 1]);
    }
  }

  // ---------- What a run accepts, and what it answers ----------

  function PushedBy(others: seq<Other>): seq<Item> {
    if others == [] then [] else
    PushedBy(others[..|others| - 1]) +
    match others[|others| - 1]
    case Pushes(x) => [x]
    case Terminates => []
  }

  /** What the other threads do in a command. */
  function Meddling(cmd: Command): seq<Other> {
    match cmd
    case Meddle(other) => [other]
    case Get(meanwhile) => meanwhile
  }

  function PushedIn(cmds: seq<Command>): seq<Item> {
    if cmds == [] then [] else PushedIn(cmds[..|cmds| - 1]) + PushedBy(Meddling(cmds[|cmds| - 1]))
  }

  lemma {:induction false} OthersAccepted(cfg: Config, v: View, others: seq<Other>)
    requires Constructible(cfg)
    ensures DisturbedAll(cfg, v, others).terminated <==> v.terminated || Terminates in others
    ensures cfg.leak.Leaky? && !v.terminated && Terminates !in others ==>
              DisturbedAll(cfg, v, others).accepted == v.accepted + PushedBy(others)
  {
    if others != [] {
      OthersAccepted(cfg, v, others[..|others| - 1]);
      assert others == others[..|others| - 1] + [others[|others| - 1]];
    }
  }

  lemma JustOne(cfg: Config, v: View, other: Other)
    requires Constructible(cfg)
    ensures DisturbedAll(cfg, v, [other]) == Disturbed(cfg, v, other)
  {
    assert [other][..0] == [] && DisturbedAll(cfg, v, [other][..0]) == v;
  }

  lemma NextAccepts(cfg: Config, s: Session, cmd: Command)
    requires Constructible(cfg)
    ensures var n := Next(cfg, s, cmd);
            && (n.view.terminated <==> s.view.terminated || Terminates in Meddling(cmd))
            && |n.results| == |s.results| + (if cmd.Get? then 1 else 0)
            && (cfg.leak.Leaky? && !s.view.terminated && Terminates !in Meddling(cmd) ==>
                  n.view.accepted == s.view.accepted + PushedBy(Meddling(cmd)))
  {
    OthersAccepted(cfg, s.view, Meddling(cmd));
    if cmd.Meddle? {
      JustOne(cfg, s.view, cmd.other);
    }
  }

  function CountGets(cmds: seq<Command>): nat {
    if cmds == [] then 0 else CountGets(cmds[..|cmds| - 1]) + if cmds[|cmds| - 1].Get? then 1 else 0
  }

  predicate TerminatedIn(cmds: seq<Command>) {
    cmds != [] && (TerminatedIn(cmds[..|cmds| - 1]) || Terminates in Meddling(cmds[|cmds| - 1]))
  }

  /** Every get has a result. */
  lemma {:induction false} EveryGetEnds(cfg: Config, s: Session, cmds: seq<Command>)
    requires Constructible(cfg)
    ensures |Run(cfg, s, cmds).results| == |s.results| + CountGets(cmds)
    ensures Run(cfg, s, cmds).view.terminated <==> s.view.terminated || TerminatedIn(cmds)
  {
    if cmds != [] {
      EveryGetEnds(cfg, s, cmds[..|cmds| - 1]);
      NextAccepts(cfg, Run(cfg, s, cmds[..|cmds| - 1]), cmds[|cmds| - 1]);
    }
  }

  /** A leaky queue accepts every push until it is terminated. */
  lemma {:induction false} EveryRunAccepts(cfg: Config, s: Session, cmds: seq<Command>)
    requires Constructible(cfg) && cfg.leak.Leaky? && !s.view.terminated && !TerminatedIn(cmds)
    ensures Run(cfg, s, cmds).view.accepted == s.view.accepted + PushedIn(cmds)
  {
    if cmds != [] {
      EveryRunAccepts(cfg, s, cmds[..|cmds| - 1]);
      LastAccepts(cfg, s, cmds, PushedIn(cmds[..|cmds| - 1]));
    }
  }

  lemma LastAccepts(cfg: Config, s: Session, cmds: seq<Command>, before: seq<Item>)
    requires Constructible(cfg) && cfg.leak.Leaky? && cmds != []
    requires !s.view.terminated && !TerminatedIn(cmds)
    requires Run(cfg, s, cmds[..|cmds| - 1]).view.accepted == s.view.accepted + before
    ensures Run(cfg, s, cmds).view.accepted == s.view.accepted + (before + PushedBy(Meddling(cmds[|cmds| - 1])))
  {
    EveryGetEnds(cfg, s, cmds[..|cmds| - 1]);
    NextAccepts(cfg, Run(cfg, s, cmds[..|cmds| - 1]), cmds[|cmds| - 1]);
    Associative(s.view.accepted, before, PushedBy(Meddling(cmds[|cmds| - 1])));
  }

  lemma Associative(a: seq<Item>, b: seq<Item>, c: seq<Item>)
    ensures a + b + c == a + (b + c)
  {
  }
}

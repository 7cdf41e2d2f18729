/** When a thread can be left asleep after all: exactly when `front` is used, when a blocking queue is
    cleared, and when `terminate` is called while a thread is on its way to sleep.
 */
module LockQueueTraps {
  import opened Wrappers
  import opened LockQueue
  import opened LockQueueCalls

  ghost predicate Reaches(cfg: Config, s: State, m: State, allowed: Event -> bool) {
    exists es :: (forall e <- es :: allowed(e)) && Exec(cfg, s, es) == Some(m)
  }

  lemma ReachesThen(cfg: Config, s: State, m: State, es: seq<Event>, n: State, allowed: Event -> bool)
    requires Reaches(cfg, s, m, allowed) && Exec(cfg, m, es) == Some(n) && forall e <- es :: allowed(e)
    ensures Reaches(cfg, s, n, allowed)
  {
    var ds :| (forall e <- ds :: allowed(e)) && Exec(cfg, s, ds) == Some(m);
    ExecThen(cfg, s, ds, es);
    assert forall e <- ds + es :: allowed(e);
  }

  lemma ReachesNext(cfg: Config, s: State, m: State, e: Event, n: State, allowed: Event -> bool)
    requires Reaches(cfg, s, m, allowed) && Next(cfg, m, e) == Some(n) && allowed(e)
    ensures Reaches(cfg, s, n, allowed)
  {
    OneEvent(cfg, m, e);
    ReachesThen(cfg, s, m, [e], n, allowed);
  }

  lemma ReachesOn(cfg: Config, s: State, m: State, n: State, allowed: Event -> bool)
    requires Reaches(cfg, s, m, allowed) && Reaches(cfg, m, n, allowed)
    ensures Reaches(cfg, s, n, allowed)
  {
    var es :| (forall e <- es :: allowed(e)) && Exec(cfg, m, es) == Some(n);
    ReachesThen(cfg, s, m, es, n, allowed);
  }

  lemma ReachesItself(cfg: Config, s: State, allowed: Event -> bool)
    ensures Reaches(cfg, s, s, allowed)
  {
    assert Exec(cfg, s, []) == Some(s);
  }

  /** The events `allowed` can strand a sleeper: at rest, it sleeps although it could proceed. */
  ghost predicate CanStrand(cfg: Config, allowed: Event -> bool) {
    exists tids, m :: Stranded(cfg, m) && Reaches(cfg, Start(cfg, tids), m, allowed)
  }

  /** Pushes, pops and `front`. */
  predicate WithFront(e: Event) {
    !e.action.Clear? && !e.action.BeginTerminate?
  }

  /** Pushes, pops and `clearQueue`. */
  predicate WithClear(e: Event) {
    e.action != Call(Front) && !e.action.BeginTerminate?
  }

  ghost predicate AllowsSteps(allowed: Event -> bool) {
    forall e: Event | e.action.Acquire? || e.action.Test? || e.action.Sleep? ||
      e.action.ReadFlag? || e.action.Commit? || e.action.NotifyOne? :: allowed(e)
  }

  ghost predicate Allows(op: Op, allowed: Event -> bool) {
    AllowsSteps(allowed) && forall t: Tid :: allowed(Event(t, Call(op)))
  }

  // ---------- Legs of a run ----------

  /** The mutex is free and `terminate` has not been called. */
  ghost predicate Open(s: State) {
    s.holder == None && !s.terminated
  }

  lemma SleepLeg(cfg: Config, s: State, m: State, t: Tid, op: Op, allowed: Event -> bool)
    requires Reaches(cfg, s, m, allowed) && Allows(op, allowed)
    requires Open(m) && t in m.threads && m.threads[t].Idle? && Blocked(cfg, op, m.queue)
    ensures Reaches(cfg, s, Goto(m, t, Asleep(op)), allowed)
  {
    FallsAsleep(cfg, m, t, op);
    ReachesThen(cfg, s, m, Enter(t, op) + [Event(t, Sleep)], Goto(m, t, Asleep(op)), allowed);
  }

  lemma CommitLeg(cfg: Config, s: State, m: State, t: Tid, op: Op, allowed: Event -> bool)
    requires Constructible(cfg) && Reaches(cfg, s, m, allowed) && Allows(op, allowed)
    requires Open(m) && t in m.threads && m.threads[t].Idle? && !Blocked(cfg, op, m.queue)
    ensures Reaches(cfg, s, Goto(Effect(cfg, m, op), t, AfterCommit(cfg, op)), allowed)
  {
    RunsThrough(cfg, m, t, op);
    ReachesThen(cfg, s, m, Enter(t, op) + ([Event(t, ReadFlag)] + [Event(t, Commit)]),
                Goto(Effect(cfg, m, op), t, AfterCommit(cfg, op)), allowed);
  }

  lemma NotifyNobody(cfg: Config, s: State, m: State, t: Tid, allowed: Event -> bool)
    requires Reaches(cfg, s, m, allowed) && AllowsSteps(allowed) && t in m.threads
    requires m.threads[t].NotifyingProducer? || m.threads[t].NotifyingConsumer?
    requires forall u <- m.threads :: !m.threads[u].Asleep?
    ensures Reaches(cfg, s, Goto(m, t, Idle), allowed)
  {
    var k := Goto(m, t, NotifyingConsumer);
    if m.threads[t].NotifyingProducer? {
      ReachesNext(cfg, s, m, Event(t, NotifyOne(None)), k, allowed);
      LastPcCounts(m.threads, t, NotifyingConsumer, Idle);
    } else {
      assert k.threads == m.threads;
    }
    ReachesNext(cfg, s, k, Event(t, NotifyOne(None)), Goto(m, t, Idle), allowed);
  }

  ghost predicate EverybodyIdle(s: State) {
    forall u <- s.threads :: s.threads[u].Idle?
  }

  /** A push or pop while nobody does anything else. */
  lemma LoneCall(cfg: Config, s: State, m: State, t: Tid, op: Op, allowed: Event -> bool)
    requires Constructible(cfg) && Reaches(cfg, s, m, allowed) && Allows(op, allowed) && !op.Front?
    requires Open(m) && t in m.threads && EverybodyIdle(m) && !Blocked(cfg, op, m.queue)
    ensures Reaches(cfg, s, Effect(cfg, m, op), allowed)
  {
    CommitLeg(cfg, s, m, t, op, allowed);
    NotifyNobody(cfg, s, Goto(Effect(cfg, m, op), t, AfterCommit(cfg, op)), t, allowed);
    LastPcCounts(m.threads, t, AfterCommit(cfg, op), Idle);
    assert m.threads[t := Idle] == m.threads;
  }

  lemma {:induction false} Drain(cfg: Config, s: State, m: State, t: Tid, allowed: Event -> bool) returns (n: State)
    requires Constructible(cfg) && Reaches(cfg, s, m, allowed) && Allows(Pop, allowed)
    requires Open(m) && t in m.threads && EverybodyIdle(m)
    ensures Reaches(cfg, s, n, allowed) && Open(n) && n.threads == m.threads && n.queue == []
    decreases |m.queue|
  {
    n := m;
    if m.queue != [] {
      LoneCall(cfg, s, m, t, Pop, allowed);
      n := Drain(cfg, s, Effect(cfg, m, Pop), t, allowed);
    }
  }

  lemma {:induction false} Fill(cfg: Config, s: State, m: State, t: Tid, x: Item, allowed: Event -> bool) returns (n: State)
    requires Constructible(cfg) && Reaches(cfg, s, m, allowed) && Allows(Push(x), allowed)
    requires Open(m) && t in m.threads && EverybodyIdle(m) && |m.queue| <= cfg.capacity
    ensures Reaches(cfg, s, n, allowed) && Open(n) && n.threads == m.threads && |n.queue| == cfg.capacity
    decreases cfg.capacity - |m.queue|
  {
    n := m;
    if |m.queue| < cfg.capacity {
      LoneCall(cfg, s, m, t, Push(x), allowed);
      n := Fill(cfg, s, Effect(cfg, m, Push(x)), t, x, allowed);
    }
  }

  lemma EndsStranded(cfg: Config, tids: set<Tid>, m: State, t: Tid, allowed: Event -> bool)
    requires Reaches(cfg, Start(cfg, tids), m, allowed) && AtRest(m)
    requires t in m.threads && m.threads[t].Asleep? && !Blocked(cfg, m.threads[t].op, m.queue)
    ensures CanStrand(cfg, allowed)
  {
    assert Stranded(cfg, m);
  }

  // ---------- front ----------

  /** A thread in `front` and a thread in `pop` sleep on an empty queue; the only notification of the
      next push goes to the former. */
  lemma FrontTakesTheWakeup(cfg: Config, s: State, m: State) returns (n: State)
    requires Constructible(cfg) && Reaches(cfg, s, m, WithFront) && Open(m) && m.queue == []
    requires m.threads == map[0 := Asleep(Front), 1 := Asleep(Pop), 2 := Idle]
    ensures Reaches(cfg, s, n, WithFront) && Open(n) && n.queue != []
    ensures n.threads == map[0 := Woken(Front), 1 := Asleep(Pop), 2 := Idle]
  {
    var k := Goto(Effect(cfg, m, Push(7)), 2, NotifyingConsumer);
    CommitLeg(cfg, s, m, 2, Push(7), WithFront);
    n := Goto(Goto(k, 0, Woken(Front)), 2, Idle);
    ReachesNext(cfg, s, k, Event(2, NotifyOne(Some(0))), n, WithFront);
  }

  lemma FrontPassesNothingOn(cfg: Config, s: State, m: State)
    requires Constructible(cfg) && Reaches(cfg, s, m, WithFront) && Open(m) && m.queue != []
    requires m.threads == map[0 := Woken(Front), 1 := Asleep(Pop), 2 := Idle]
    ensures Reaches(cfg, s, Goto(m, 0, Idle), WithFront)
  {
    Resumes(cfg, m, 0, Front);
    ReachesThen(cfg, s, m, Resume(0), Goto(m, 0, Idle), WithFront);
  }

  lemma FrontAndPopSleep(cfg: Config) returns (n: State)
    requires Constructible(cfg)
    ensures Reaches(cfg, Start(cfg, {0, 1, 2}), n, WithFront) && Open(n) && n.queue == []
    ensures n.threads == map[0 := Asleep(Front), 1 := Asleep(Pop), 2 := Idle]
  {
    var s := Start(cfg, {0, 1, 2});
    ReachesItself(cfg, s, WithFront);
    var m := Drain(cfg, s, s, 2, WithFront);
    SleepLeg(cfg, s, m, 0, Front, WithFront);
    SleepLeg(cfg, s, Goto(m, 0, Asleep(Front)), 1, Pop, WithFront);
    n := Goto(Goto(m, 0, Asleep(Front)), 1, Asleep(Pop));
  }

  /** `front` takes a wakeup and does not pass it on: in every queue it can leave the consumer that
      would pop asleep. */
  lemma FrontStrands(cfg: Config)
    requires Constructible(cfg)
    ensures CanStrand(cfg, WithFront)
  {
    var s := Start(cfg, {0, 1, 2});
    var m := FrontAndPopSleep(cfg);
    var n := FrontTakesTheWakeup(cfg, s, m);
    FrontPassesNothingOn(cfg, s, n);
    EndsStranded(cfg, {0, 1, 2}, Goto(n, 0, Idle), 1, WithFront);
  }

  // ---------- clearQueue ----------

  lemma ClearTellsNobody(cfg: Config)
    requires Constructible(cfg) && cfg.leak.PushBlocking?
    ensures CanStrand(cfg, WithClear)
  {
    var s := Start(cfg, {0, 1});
    ReachesItself(cfg, s, WithClear);
    var m := Fill(cfg, s, s, 1, 7, WithClear);
    SleepLeg(cfg, s, m, 0, Push(8), WithClear);
    var n := Goto(m, 0, Asleep(Push(8)));
    ReachesNext(cfg, s, n, Event(1, Clear), n.(queue := []), WithClear);
    EndsStranded(cfg, {0, 1}, n.(queue := []), 0, WithClear);
  }

  /** `clearQueue` makes room and tells no producer; it strands somebody exactly where producers can
      sleep. */
  lemma ClearStrandsIff(cfg: Config)
    requires Constructible(cfg)
    ensures CanStrand(cfg, WithClear) <==> cfg.leak.PushBlocking?
  {
    if cfg.leak.PushBlocking? {
      ClearTellsNobody(cfg);
    } else if CanStrand(cfg, WithClear) {
      var tids, m :| Stranded(cfg, m) && Reaches(cfg, Start(cfg, tids), m, WithClear);
      var es :| (forall e <- es :: WithClear(e)) && Exec(cfg, Start(cfg, tids), es) == Some(m);
      SleepersMustWait(cfg, tids, es);
    }
  }

  // ---------- terminate ----------

  /** `t` has sent both notifications. */
  predicate HasNotified(pc: Pc) {
    !pc.Ending? && !pc.WakingProducers? && !pc.WakingConsumers?
  }

  ghost predicate NobodySleepy(s: State) {
    forall u <- s.threads :: !s.threads[u].Sleepy?
  }

  ghost predicate NobodyAsleep(s: State) {
    forall u <- s.threads :: !s.threads[u].Asleep?
  }

  /** The flag is set and nobody is past a failed test; as far as `t` has notified, nobody sleeps. */
  ghost predicate Emptying(s: State, t: Tid) {
    && s.terminated && t in s.threads && !s.threads[t].Ending?
    && NobodySleepy(s)
    && (!s.threads[t].WakingProducers? ==> forall u :: !SleepsAs(s, u, true))
    && (HasNotified(s.threads[t]) ==> NobodyAsleep(s))
  }

  lemma OwnStepSleepsNot(cfg: Config, s: State, e: Event)
    requires s.terminated && Next(cfg, s, e).Some? && e.thread in Next(cfg, s, e).value.threads
    requires e.thread in s.threads && !s.threads[e.thread].Sleepy?
    ensures var pc := Next(cfg, s, e).value.threads[e.thread]; !pc.Sleepy? && !pc.Asleep?
  {
  }

  lemma NobodyFallsAsleep(cfg: Config, s: State, e: Event)
    requires s.terminated && NobodySleepy(s) && Next(cfg, s, e).Some?
    ensures var n := Next(cfg, s, e).value;
            && NobodySleepy(n)
            && forall u <- n.threads | n.threads[u].Asleep? :: u in s.threads && n.threads[u] == s.threads[u]
  {
    var n := Next(cfg, s, e).value;
    forall u | u in n.threads
      ensures !n.threads[u].Sleepy? && (n.threads[u].Asleep? ==> u in s.threads && n.threads[u] == s.threads[u])
    {
      if u == e.thread {
        OwnStepSleepsNot(cfg, s, e);
      } else {
        OthersOnlyWake(cfg, s, e, u);
      }
    }
  }

  /** `t` itself gets on only by notifying. */
  lemma OwnProgress(cfg: Config, s: State, t: Tid, e: Event)
    requires s.terminated && t in s.threads && !s.threads[t].Ending? && Next(cfg, s, e).Some?
    ensures var n := Next(cfg, s, e).value;
            && n.terminated && t in n.threads && !n.threads[t].Ending?
            && (e != Event(t, NotifyAll) ==>
                  && (n.threads[t].WakingProducers? <==> s.threads[t].WakingProducers?)
                  && (HasNotified(n.threads[t]) <==> HasNotified(s.threads[t])))
  {
    if t != e.thread {
      OtherThreadsStay(cfg, s, e);
      OthersOnlyWake(cfg, s, e, t);
    }
  }

  lemma OtherThreadsStay(cfg: Config, s: State, e: Event)
    requires Next(cfg, s, e).Some?
    ensures Next(cfg, s, e).value.threads.Keys == s.threads.Keys
    ensures s.terminated ==> Next(cfg, s, e).value.terminated
  {
  }

  lemma AllAreWoken(cfg: Config, s: State, t: Tid)
    requires Next(cfg, s, Event(t, NotifyAll)).Some?
    ensures var n := Next(cfg, s, Event(t, NotifyAll)).value;
            && n.threads[t] == (if s.threads[t].WakingProducers? then WakingConsumers else Idle)
            && forall u :: !SleepsAs(n, u, s.threads[t].WakingProducers?)
  {
  }

  lemma NextEmpties(cfg: Config, s: State, t: Tid, e: Event)
    requires Emptying(s, t) && Next(cfg, s, e).Some?
    ensures Emptying(Next(cfg, s, e).value, t)
  {
    NobodyFallsAsleep(cfg, s, e);
    OwnProgress(cfg, s, t, e);
    var n := Next(cfg, s, e).value;
    assert forall u, producer | SleepsAs(n, u, producer) :: SleepsAs(s, u, producer);
    if e == Event(t, NotifyAll) {
      AllAreWoken(cfg, s, t);
    }
    assert forall u <- n.threads | n.threads[u].Asleep? :: SleepsAs(n, u, true) || SleepsAs(n, u, false);
  }

  lemma {:induction false} EveryRunEmpties(cfg: Config, s: State, t: Tid, es: seq<Event>)
    requires Emptying(s, t) && Exec(cfg, s, es).Some?
    ensures Emptying(Exec(cfg, s, es).value, t)
    decreases |es|
  {
    if es != [] {
      NextEmpties(cfg, s, t, es[0]);
      EveryRunEmpties(cfg, Next(cfg, s, es[0]).value, t, es[1..]);
    }
  }

  predicate Anything(e: Event) {
    true
  }

  /** `t` is about to set the flag; once it has notified all, somebody may still be asleep. */
  ghost predicate MissesASleeper(cfg: Config, s: State, t: Tid)
    requires t in s.threads && s.threads[t].Ending?
  {
    exists m :: Reaches(cfg, Next(cfg, s, Event(t, SetFlag)).value, m, Anything)
                && t in m.threads && HasNotified(m.threads[t]) && !NobodyAsleep(m)
  }

  /** What becomes of `u`, which found that it has to wait, when `t` sets the flag and notifies all
      before `u` gets to sleep. */
  function Missed(s: State, t: Tid, u: Tid): State
    requires u in s.threads && s.threads[u].Sleepy?
  {
    s.(terminated := true, holder := None,
       threads := map v | v in s.threads ::
         if v == t then Idle
         else if v == u then Asleep(s.threads[u].op)
         else if s.threads[v].Asleep? then Woken(s.threads[v].op)
         else s.threads[v])
  }

  lemma SleepyIsMissed(cfg: Config, s: State, t: Tid, u: Tid)
    requires t in s.threads && s.threads[t].Ending? && u in s.threads && s.threads[u].Sleepy?
    ensures Reaches(cfg, Next(cfg, s, Event(t, SetFlag)).value, Missed(s, t, u), Anything)
  {
    var s0 := Next(cfg, s, Event(t, SetFlag)).value;
    var s1 := Next(cfg, s0, Event(t, NotifyAll)).value;
    var s2 := Next(cfg, s1, Event(t, NotifyAll)).value;
    ReachesItself(cfg, s0, Anything);
    ReachesNext(cfg, s0, s0, Event(t, NotifyAll), s1, Anything);
    ReachesNext(cfg, s0, s1, Event(t, NotifyAll), s2, Anything);
    var m := Missed(s, t, u);
    assert Next(cfg, s2, Event(u, Sleep)).value.threads == m.threads;
    ReachesNext(cfg, s0, s2, Event(u, Sleep), m, Anything);
  }

  /** `terminate` can leave a thread asleep if and only if some thread has already found that it has
      to wait, and is not yet waiting, when the flag is set. Otherwise, from the last notification
      on, nobody sleeps. */
  lemma TerminateMissesIff(cfg: Config, s: State, t: Tid)
    requires t in s.threads && s.threads[t].Ending?
    ensures MissesASleeper(cfg, s, t) <==> !NobodySleepy(s)
  {
    var s0 := Next(cfg, s, Event(t, SetFlag)).value;
    if NobodySleepy(s) {
      forall m | Reaches(cfg, s0, m, Anything) && t in m.threads && HasNotified(m.threads[t]) ensures NobodyAsleep(m) {
        var es :| (forall e <- es :: Anything(e)) && Exec(cfg, s0, es) == Some(m);
        EveryRunEmpties(cfg, s0, t, es);
      }
    } else {
      var u :| u in s.threads && s.threads[u].Sleepy?;
      SleepyIsMissed(cfg, s, t, u);
      assert Missed(s, t, u).threads[u].Asleep?;
    }
  }

  // ---------- ... and for good ----------

  /** Nobody is left who would notify anybody. */
  ghost predicate Silent(s: State) {
    && s.terminated
    && forall t <- s.threads :: HasNotified(s.threads[t]) && !s.threads[t].Cleared?
         && !s.threads[t].NotifyingProducer? && !s.threads[t].NotifyingConsumer?
  }

  lemma NextStaysSilent(cfg: Config, s: State, e: Event, u: Tid)
    requires Silent(s) && Next(cfg, s, e).Some?
    requires u in s.threads && s.threads[u].Asleep? && e != Event(u, WakeUp)
    ensures var n := Next(cfg, s, e).value; Silent(n) && u in n.threads && n.threads[u] == s.threads[u]
  {
  }

  /** Nothing but a spurious wakeup ever wakes a thread that is asleep then. */
  lemma {:induction false} AsleepForGood(cfg: Config, s: State, u: Tid, es: seq<Event>)
    requires Silent(s) && u in s.threads && s.threads[u].Asleep?
    requires Exec(cfg, s, es).Some? && forall e <- es :: e != Event(u, WakeUp)
    ensures var m := Exec(cfg, s, es).value; Silent(m) && u in m.threads && m.threads[u] == s.threads[u]
    decreases |es|
  {
    if es != [] {
      assert es[0] in es && forall e <- es[1..] :: e in es;
      NextStaysSilent(cfg, s, es[0], u);
      AsleepForGood(cfg, Next(cfg, s, es[0]).value, u, es[1..]);
    }
  }

  lemma PopFindsNothing(cfg: Config) returns (n: State)
    requires Constructible(cfg)
    ensures Reaches(cfg, Start(cfg, {0, 1}), n, Anything) && n.threads == map[0 := Sleepy(Pop), 1 := Idle]
    ensures !n.terminated
  {
    var s := Start(cfg, {0, 1});
    ReachesItself(cfg, s, Anything);
    var m := Drain(cfg, s, s, 1, Anything);
    Enters(cfg, m, 0, Pop);
    n := Goto(m.(holder := Some(0)), 0, Sleepy(Pop));
    ReachesThen(cfg, s, m, Enter(0, Pop), n, Anything);
  }

  lemma PopBlocksAsTerminateBegins(cfg: Config) returns (n: State)
    requires Constructible(cfg)
    ensures Reaches(cfg, Start(cfg, {0, 1}), n, Anything) && n.threads == map[0 := Sleepy(Pop), 1 := Ending]
  {
    var m := PopFindsNothing(cfg);
    n := Goto(m, 1, Ending);
    ReachesNext(cfg, Start(cfg, {0, 1}), m, Event(1, BeginTerminate), n, Anything);
  }

  /** So every queue can be terminated with a consumer left asleep that nothing but a spurious wakeup
      will wake. */
  lemma TerminateMissesASleeper(cfg: Config)
    requires Constructible(cfg)
    ensures exists m :: Reaches(cfg, Start(cfg, {0, 1}), m, Anything) && Silent(m)
                        && 0 in m.threads && m.threads[0] == Asleep(Pop)
  {
    var s := Start(cfg, {0, 1});
    var n := PopBlocksAsTerminateBegins(cfg);
    var k := Next(cfg, n, Event(1, SetFlag)).value;
    ReachesNext(cfg, s, n, Event(1, SetFlag), k, Anything);
    SleepyIsMissed(cfg, n, 1, 0);
    ReachesOn(cfg, s, k, Missed(n, 1, 0), Anything);
    MissedForGood(n);
  }

  lemma MissedForGood(n: State)
    requires n.threads == map[0 := Sleepy(Pop), 1 := Ending]
    ensures var m := Missed(n, 1, 0); Silent(m) && 0 in m.threads && m.threads[0] == Asleep(Pop)
  {
  }
}

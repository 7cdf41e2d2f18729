/** Calls that run without interruption: what their events do to the whole state. */
module LockQueueCalls {
  import opened Wrappers
  import opened LockQueue

  lemma {:induction false} ExecThen(cfg: Config, s: State, es: seq<Event>, fs: seq<Event>)
    requires Exec(cfg, s, es).Some?
    ensures Exec(cfg, s, es + fs) == Exec(cfg, Exec(cfg, s, es).value, fs)
    decreases |es|
  {
    if es == [] {
      assert es + fs == fs;
    } else {
      assert (es + fs)[0] == es[0] && (es + fs)[1..] == es[1..] + fs;
      ExecThen(cfg, Next(cfg, s, es[0]).value, es[1..], fs);
    }
  }

  lemma ExecStep(cfg: Config, s: State, es: seq<Event>, e: Event)
    requires Exec(cfg, s, es).Some?
    ensures Exec(cfg, s, es + [e]) == Next(cfg, Exec(cfg, s, es).value, e)
  {
    ExecThen(cfg, s, es, [e]);
    var m := Exec(cfg, s, es).value;
    assert Exec(cfg, m, [e]) == if Next(cfg, m, e) == None then None else Exec(cfg, Next(cfg, m, e).value, []);
  }

  lemma LastPcCounts(threads: map<Tid, Pc>, t: Tid, a: Pc, b: Pc)
    ensures threads[t := a][t := b] == threads[t := b]
  {
  }

  /** From the call to the wait condition. */
  function Enter(t: Tid, op: Op): seq<Event> {
    [Event(t, Call(op))] + [Event(t, Acquire)] + [Event(t, Test)]
  }

  lemma Enters(cfg: Config, s: State, t: Tid, op: Op)
    requires t in s.threads && s.threads[t].Idle? && s.holder == None
    ensures Exec(cfg, s, Enter(t, op)) == Some(Goto(s.(holder := Some(t)), t,
              if Blocked(cfg, op, s.queue) && !s.terminated then Sleepy(op) else Passed(op)))
  {
    var call := [Event(t, Call(op))];
    assert Exec(cfg, s, []) == Some(s) && [] + call == call;
    ExecStep(cfg, s, [], Event(t, Call(op)));
    ExecStep(cfg, s, call, Event(t, Acquire));
    LastPcCounts(s.threads, t, Entering(op), Checking(op));
    ExecStep(cfg, s, call + [Event(t, Acquire)], Event(t, Test));
    LastPcCounts(s.threads, t, Checking(op), Sleepy(op));
    LastPcCounts(s.threads, t, Checking(op), Passed(op));
  }

  lemma FallsAsleep(cfg: Config, s: State, t: Tid, op: Op)
    requires t in s.threads && s.threads[t].Idle? && s.holder == None && !s.terminated
    requires Blocked(cfg, op, s.queue)
    ensures Exec(cfg, s, Enter(t, op) + [Event(t, Sleep)]) == Some(Goto(s, t, Asleep(op)))
  {
    Enters(cfg, s, t, op);
    ExecStep(cfg, s, Enter(t, op), Event(t, Sleep));
    LastPcCounts(s.threads, t, Sleepy(op), Asleep(op));
  }

  lemma Passes(cfg: Config, s: State, t: Tid, op: Op)
    requires Constructible(cfg) && t in s.threads && s.holder == Some(t) && !s.terminated
    requires s.threads[t] == Passed(op) && !Blocked(cfg, op, s.queue)
    ensures Exec(cfg, s, [Event(t, ReadFlag)] + [Event(t, Commit)])
            == Some(Release(Effect(cfg, s, op), t, AfterCommit(cfg, op)))
  {
    var read := [Event(t, ReadFlag)];
    assert Exec(cfg, s, []) == Some(s) && [] + read == read;
    ExecStep(cfg, s, [], Event(t, ReadFlag));
    ExecStep(cfg, s, read, Event(t, Commit));
    LastPcCounts(s.threads, t, Cleared(op), AfterCommit(cfg, op));
  }

  lemma RunsThrough(cfg: Config, s: State, t: Tid, op: Op)
    requires Constructible(cfg) && t in s.threads && s.threads[t].Idle? && s.holder == None && !s.terminated
    requires !Blocked(cfg, op, s.queue)
    ensures Exec(cfg, s, Enter(t, op) + ([Event(t, ReadFlag)] + [Event(t, Commit)]))
            == Some(Goto(Effect(cfg, s, op), t, AfterCommit(cfg, op)))
  {
    Enters(cfg, s, t, op);
    var m := Goto(s.(holder := Some(t)), t, Passed(op));
    ExecThen(cfg, s, Enter(t, op), [Event(t, ReadFlag)] + [Event(t, Commit)]);
    Passes(cfg, m, t, op);
    LastPcCounts(s.threads, t, Passed(op), AfterCommit(cfg, op));
  }

  /** A thread that was woken and finds the mutex free does its operation. */
  function Resume(t: Tid): seq<Event> {
    [Event(t, Acquire)] + [Event(t, Test)] + ([Event(t, ReadFlag)] + [Event(t, Commit)])
  }

  lemma Resumes(cfg: Config, s: State, t: Tid, op: Op)
    requires Constructible(cfg) && t in s.threads && s.threads[t] == Woken(op)
    requires s.holder == None && !s.terminated && !Blocked(cfg, op, s.queue)
    ensures Exec(cfg, s, Resume(t)) == Some(Goto(Effect(cfg, s, op), t, AfterCommit(cfg, op)))
  {
    var m := Goto(s.(holder := Some(t)), t, Passed(op));
    assert Exec(cfg, s, []) == Some(s) && [] + [Event(t, Acquire)] == [Event(t, Acquire)];
    ExecStep(cfg, s, [], Event(t, Acquire));
    ExecStep(cfg, s, [Event(t, Acquire)], Event(t, Test));
    LastPcCounts(s.threads, t, Checking(op), Passed(op));
    ExecThen(cfg, s, [Event(t, Acquire)] + [Event(t, Test)], [Event(t, ReadFlag)] + [Event(t, Commit)]);
    Passes(cfg, m, t, op);
    LastPcCounts(s.threads, t, Passed(op), AfterCommit(cfg, op));
  }

  lemma OneEvent(cfg: Config, s: State, e: Event)
    ensures Exec(cfg, s, [e]) == Next(cfg, s, e)
  {
    assert Exec(cfg, s, []) == Some(s) && [] + [e] == [e];
    ExecStep(cfg, s, [], e);
  }
}

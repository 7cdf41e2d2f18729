/** The throttle: a worker that hands the latest pushed item to a callback, at most once per delay.
    A step is what one thread does while it holds the mutex, or a change of the stop flag, or the
    passing of time. The worker holds the mutex during the callback.
 */
module Throttle {

  type Item = int

  datatype Worker =
    | AtLoop
    | Waiting                // for an item or the stop flag
    | Calling                // inside the callback, holding the mutex
    | Stalling(until: nat)   // until the delay is over
    | Ended

  /** `pushes` are the items pushed so far; `delivered`, `began` and `ended` record, for every
      callback, which push it got and when it began and ended. The code does not keep them. */
  datatype State = State(
    data: Item,
    newData: bool,
    stopped: bool,
    worker: Worker,
    now: nat,
    pushes: seq<Item>,
    delivered: seq<int>,
    handed: seq<Item>,
    began: seq<nat>,
    ended: seq<nat>)

  datatype Event =
    | Push(item: Item)
    | EnterLoop
    | Look
    | Return(throws: bool)
    | EndStall
    | Stop
    | Tick

  predicate Enabled(s: State, e: Event) {
    match e
    case Push(_) => !s.worker.Calling?
    case EnterLoop => s.worker.AtLoop?
    case Look => s.worker.Waiting? && (s.stopped || s.newData)
    case Return(_) => s.worker.Calling?
    case EndStall => s.worker.Stalling? && (s.stopped || s.now >= s.worker.until)
    case Stop => true
    case Tick => true
  }

  function Next(delay: nat, s: State, e: Event): State
    requires Enabled(s, e)
  {
    match e
    case Push(x) => s.(data := x, newData := true, pushes := s.pushes + [x])
    case EnterLoop => s.(worker := if s.stopped then Ended else Waiting)
    case Look =>
      if s.stopped then s.(worker := Ended)
      else s.(worker := Calling, delivered := s.delivered + [|s.pushes| - 1],
              handed := s.handed + [s.data], began := s.began + [s.now])
    case Return(throws) =>
      if throws then s.(stopped := true, worker := Ended, ended := s.ended + [s.now])
      else s.(newData := false, worker := Stalling(s.now + delay), ended := s.ended + [s.now])
    case EndStall => s.(worker := AtLoop)
    case Stop => s.(stopped := true)
    case Tick => s.(now := s.now + 1)
  }

  /** The newest push is not delivered yet. */
  predicate Pending(s: State) {
    s.pushes != [] && (s.delivered == [] || s.delivered[|s.delivered| - 1] < |s.pushes| - 1)
  }

  /** What is buffered is the newest push, and the flag says whether it has been handed out. */
  ghost predicate Buffered(s: State) {
    && (s.newData ==> s.pushes != [] && s.data == s.pushes[|s.pushes| - 1])
    && (s.worker.Calling? ==> s.newData && s.delivered != [] && !Pending(s))
    && (!s.worker.Calling? && !s.stopped ==> (s.newData <==> Pending(s)))
  }

  /** Every callback gets the push it is recorded with, and a newer one than the callback before. */
  ghost predicate LatestWins(s: State) {
    && |s.delivered| == |s.handed|
    && (forall i | 0 <= i < |s.delivered| :: 0 <= s.delivered[i] < |s.pushes| && s.handed[i] == s.pushes[s.delivered[i]])
    && (forall i, j | 0 <= i < j < |s.delivered| :: s.delivered[i] < s.delivered[j])
  }

  /** A callback begins at least `delay` after the one before ended. */
  ghost predicate Spaced(delay: nat, s: State) {
    && |s.began| == |s.delivered|
    && |s.ended| == (if s.worker.Calling? then |s.began| - 1 else |s.began|)
    && (forall i | 0 < i < |s.began| :: s.began[i] >= s.ended[i - 1] + delay)
    // the worker looks again only when the delay is over, or to stop
    && (s.ended != [] && !s.stopped ==>
          match s.worker
          case Stalling(until) => until == s.ended[|s.ended| - 1] + delay
          case Calling => true
          case _ => s.now >= s.ended[|s.ended| - 1] + delay)
  }

  ghost predicate Valid(delay: nat, s: State) {
    Buffered(s) && LatestWins(s) && Spaced(delay, s)
  }

  function Start(data: Item): State {
    State(data, false, false, AtLoop, 0, [], [], [], [], [])
  }

  lemma NextKeepsBuffered(delay: nat, s: State, e: Event)
    requires Buffered(s) && LatestWins(s) && Enabled(s, e)
    ensures Buffered(Next(delay, s, e))
  {
  }

  lemma NextKeepsLatest(delay: nat, s: State, e: Event)
    requires Buffered(s) && LatestWins(s) && Enabled(s, e)
    ensures LatestWins(Next(delay, s, e))
  {
    if e.Look? && !s.stopped && s.delivered != [] {
      assert forall i | 0 <= i < |s.delivered| :: s.delivered[i] <= s.delivered[|s.delivered| - 1];
    }
  }

  lemma NextKeepsSpacing(delay: nat, s: State, e: Event)
    requires Spaced(delay, s) && Enabled(s, e)
    ensures Spaced(delay, Next(delay, s, e))
  {
  }

  /** Every event of the run can happen when it does. */
  predicate Allowed(delay: nat, s: State, es: seq<Event>)
    decreases |es|
  {
    es == [] || (Enabled(s, es[0]) && Allowed(delay, Next(delay, s, es[0]), es[1..]))
  }

  function Run(delay: nat, s: State, es: seq<Event>): State
    requires Allowed(delay, s, es)
    decreases |es|
  {
    if es == [] then s else Run(delay, Next(delay, s, es[0]), es[1..])
  }

  /** In every run of pushes, callbacks, expiries and stops: each callback gets the newest push at the
      moment it begins, pushes are handed out in order and at most once, and callbacks keep their
      distance. */
  lemma {:induction false} EveryRunIsValid(delay: nat, s: State, es: seq<Event>)
    requires Valid(delay, s) && Allowed(delay, s, es)
    ensures Valid(delay, Run(delay, s, es))
    decreases |es|
  {
    if es != [] {
      NextKeepsBuffered(delay, s, es[0]);
      NextKeepsLatest(delay, s, es[0]);
      NextKeepsSpacing(delay, s, es[0]);
      EveryRunIsValid(delay, Next(delay, s, es[0]), es[1..]);
    }
  }

  /** While the worker is not stopped, no push is forgotten: it was handed out, or a newer one was,
      or the newest push is in the buffer, flagged. */
  lemma PassedOverOnlyForNewer(delay: nat, data: Item, es: seq<Event>, k: nat)
    requires Allowed(delay, Start(data), es)
    requires var m := Run(delay, Start(data), es); k < |m.pushes| && !m.stopped
    ensures var m := Run(delay, Start(data), es);
            || (exists d <- m.delivered :: k <= d)
            || (m.newData && m.data == m.pushes[|m.pushes| - 1])
  {
    EveryRunIsValid(delay, Start(data), es);
    var m := Run(delay, Start(data), es);
    if m.delivered != [] {
      assert m.delivered[|m.delivered| - 1] in m.delivered;
    }
  }

  // ---------- The worker goes on until it is stopped ----------

  ghost predicate EndsOnlyStopped(s: State) {
    s.worker.Ended? ==> s.stopped
  }

  /** Only a stop or a callback that throws ends the worker. */
  lemma {:induction false} EveryRunEndsOnlyStopped(delay: nat, s: State, es: seq<Event>)
    requires EndsOnlyStopped(s) && Allowed(delay, s, es)
    ensures EndsOnlyStopped(Run(delay, s, es))
    ensures Run(delay, s, es).stopped <==> s.stopped || Stop in es || Return(true) in es
    decreases |es|
  {
    if es != [] {
      EveryRunEndsOnlyStopped(delay, Next(delay, s, es[0]), es[1..]);
      assert es == [es[0]] + es[1..];
    }
  }

  predicate OwnStep(e: Event) {
    e.EnterLoop? || e.Look? || e.EndStall? || e.Tick?
  }

  /** While it is not stopped, the worker hands out a pending push as soon as the delay is over, without
      anybody's help: time passes, and it takes its own steps. */
  lemma {:induction false} PendingIsHandedOut(delay: nat, s: State) returns (es: seq<Event>)
    requires Valid(delay, s) && EndsOnlyStopped(s) && !s.stopped && Pending(s)
    ensures (forall e <- es :: OwnStep(e)) && Allowed(delay, s, es)
    ensures var m := Run(delay, s, es);
            && m.worker.Calling? && m.handed == s.handed + [s.pushes[|s.pushes| - 1]]
            && m.began == s.began + [if s.worker.Stalling? && s.worker.until > s.now then s.worker.until else s.now]
    decreases match s.worker
              case Stalling(until) => if until > s.now then until - s.now + 3 else 3
              case AtLoop => 2
              case _ => 1
  {
    var e := match s.worker
      case Stalling(until) => if s.now < until then Tick else EndStall
      case AtLoop => EnterLoop
      case _ => Look;
    var n := Next(delay, s, e);
    if e == Look {
      es := [e];
      assert es[1..] == [] && Run(delay, n, []) == n;
    } else {
      NextKeepsBuffered(delay, s, e);
      NextKeepsLatest(delay, s, e);
      NextKeepsSpacing(delay, s, e);
      var rest := PendingIsHandedOut(delay, n);
      es := [e] + rest;
      assert es[1..] == rest;
    }
  }

  /** A worker that has ended hands out nothing any more. */
  lemma {:induction false} EndedForGood(delay: nat, s: State, es: seq<Event>)
    requires s.worker.Ended? && Allowed(delay, s, es)
    ensures Run(delay, s, es).worker.Ended? && Run(delay, s, es).handed == s.handed
    decreases |es|
  {
    if es != [] {
      EndedForGood(delay, Next(delay, s, es[0]), es[1..]);
    }
  }

  function PushedIn(es: seq<Event>): seq<Item>
    decreases |es|
  {
    if es == [] then [] else (match es[0] case Push(x) => [x] case _ => []) + PushedIn(es[1..])
  }

  /** The history of pushes is that of the run. */
  lemma {:induction false} PushesAreHistory(delay: nat, s: State, es: seq<Event>)
    requires Allowed(delay, s, es)
    ensures Run(delay, s, es).pushes == s.pushes + PushedIn(es)
    decreases |es|
  {
    if es != [] {
      PushesAreHistory(delay, Next(delay, s, es[0]), es[1..]);
    }
  }
}

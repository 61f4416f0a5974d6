/** The closable queue between the event loop and the database workers: its critical sections as
    an object, and the monitor of waiting and notified consumers as a state machine. */
module BlockingQueues {

  // What a consumer finds: nothing yet, nothing ever again, or a value.
  datatype Found<T> = Waits | Drained | Took(value: T)

  class BlockingQueue<T> {
    var queue: seq<T>
    var closed: bool
    ghost var accepted: seq<T>  // every value a push let in
    ghost var popped: seq<T>    // every value a pop handed out

    /** What was let in is what was handed out, in that order, followed by what is queued. */
    ghost predicate Valid()
      reads this
    {
      accepted == popped + queue
    }

    constructor ()
      ensures Valid() && queue == [] && !closed && accepted == [] && popped == []
    {
      queue, closed, accepted, popped := [], false, [], [];
    }

    method Push(value: T)
      requires Valid()
      modifies this
      ensures Valid()
      ensures closed == old(closed) && popped == old(popped)
      ensures accepted == if old(closed) then old(accepted) else old(accepted) + [value]
      ensures queue == if old(closed) then old(queue) else old(queue) + [value]
    {
      if closed {
        return;
      }
      queue := queue + [value];
      accepted := accepted + [value];
    }

    // One look at the queue under the mutex: wait, give up, or take the oldest value.
    method Pop() returns (r: Found<T>)
      requires Valid()
      modifies this
      ensures Valid()
      ensures closed == old(closed) && accepted == old(accepted)
      ensures r == Waits <==> !closed && old(popped) == accepted
      ensures r == Drained <==> closed && old(popped) == accepted
      ensures !r.Took? ==> popped == old(popped) && queue == old(queue) == []
      ensures r.Took? ==> |old(popped)| < |accepted| && r.value == accepted[|old(popped)|]
                          && popped == old(popped) + [r.value] && old(queue) == [r.value] + queue
    {
      if queue == [] {
        return if closed then Drained else Waits;
      }
      r := Took(queue[0]);
      popped := popped + [queue[0]];
      queue := queue[1..];
    }

    method Close()
      requires Valid()
      modifies this
      ensures Valid()
      ensures closed && queue == old(queue) && accepted == old(accepted) && popped == old(popped)
    {
      closed := true;
    }
  }

  // ---------- The monitor ----------

  // A consumer is about to look at the queue, asleep in the wait, woken but not yet holding the
  // mutex, busy with a value it popped, or gone for good.
  datatype Consumer = Ready | Asleep | Woken | Busy | Exited

  datatype Monitor<T> = Monitor(
    queue: seq<T>,
    closed: bool,
    consumers: seq<Consumer>,
    notifies: nat,     // pushes that have released the mutex and not yet notified
    broadcasts: nat,   // closes that have released the mutex and not yet notified
    accepted: seq<T>,  // history
    popped: seq<T>)    // history

  datatype Step<T> =
    | Push(value: T)
    | Close
    | NotifyOne(i: nat)
    | NotifyNobody
    | NotifyAll
    | Spurious(i: nat)
    | Look(i: nat)     // take the mutex and test the wait condition
    | Finish(i: nat)   // done with the popped value

  predicate InState(m: Monitor, i: nat, c: Consumer) {
    i < |m.consumers| && m.consumers[i] == c
  }

  predicate Enabled<T>(m: Monitor<T>, step: Step<T>) {
    match step
    case Push(_) => true
    case Close => true
    case NotifyOne(i) => m.notifies > 0 && InState(m, i, Asleep)
    case NotifyNobody => m.notifies > 0 && Count(m.consumers, Asleep) == 0
    case NotifyAll => m.broadcasts > 0
    case Spurious(i) => InState(m, i, Asleep)
    case Look(i) => InState(m, i, Ready) || InState(m, i, Woken)
    case Finish(i) => InState(m, i, Busy)
  }

  function WakeAll(cs: seq<Consumer>): seq<Consumer> {
    seq(|cs|, i requires 0 <= i < |cs| => if cs[i] == Asleep then Woken else cs[i])
  }

  function Next<T>(m: Monitor<T>, step: Step<T>): Monitor<T>
    requires Enabled(m, step)
  {
    match step
    case Push(v) =>
      if m.closed then m
      else m.(queue := m.queue + [v], notifies := m.notifies + 1, accepted := m.accepted + [v])
    case Close => m.(closed := true, broadcasts := m.broadcasts + 1)
    case NotifyOne(i) => m.(notifies := m.notifies - 1, consumers := m.consumers[i := Woken])
    case NotifyNobody => m.(notifies := m.notifies - 1)
    case NotifyAll => m.(broadcasts := m.broadcasts - 1, consumers := WakeAll(m.consumers))
    case Spurious(i) => m.(consumers := m.consumers[i := Woken])
    case Look(i) =>
      if !m.closed && m.queue == [] then m.(consumers := m.consumers[i := Asleep])
      else if m.queue == [] then m.(consumers := m.consumers[i := Exited])
      else m.(consumers := m.consumers[i := Busy], queue := m.queue[1..], popped := m.popped + [m.queue[0]])
    case Finish(i) => m.(consumers := m.consumers[i := Ready])
  }

  function Count(cs: seq<Consumer>, c: Consumer): nat {
    if cs == [] then 0 else Count(cs[..|cs| - 1], c) + if cs[|cs| - 1] == c then 1 else 0
  }

  lemma {:induction false} CountUpdate(cs: seq<Consumer>, i: nat, d: Consumer, c: Consumer)
    requires i < |cs|
    ensures Count(cs[i := d], c) + (if cs[i] == c then 1 else 0) == Count(cs, c) + if d == c then 1 else 0
  {
    var most := cs[..|cs| - 1];
    if i == |cs| - 1 {
      assert cs[i := d][..|cs| - 1] == most;
    } else {
      CountUpdate(most, i, d, c);
      assert cs[i := d][..|cs| - 1] == most[i := d];
    }
  }

  lemma {:induction false} CountPositive(cs: seq<Consumer>, c: Consumer)
    ensures Count(cs, c) > 0 <==> exists i :: 0 <= i < |cs| && cs[i] == c
  {
    if cs == [] {
    } else {
      CountPositive(cs[..|cs| - 1], c);
      if Count(cs, c) > 0 && cs[|cs| - 1] != c {
        var i :| 0 <= i < |cs| - 1 && cs[..|cs| - 1][i] == c;
        assert cs[i] == c;
      }
    }
  }

  // Consumers that will look at the queue without anybody's help.
  function Awake(m: Monitor): nat {
    Count(m.consumers, Ready) + Count(m.consumers, Woken)
  }

  ghost predicate MonitorInv<T>(m: Monitor<T>) {
    && m.accepted == m.popped + m.queue
    && (Count(m.consumers, Exited) > 0 ==> m.closed && m.queue == [])
    // nobody sleeps over a value that nobody is on the way to fetch
    && (Count(m.consumers, Asleep) == 0 || |m.queue| <= m.notifies + Awake(m))
    && (m.closed && Count(m.consumers, Asleep) > 0 ==> m.broadcasts > 0)
  }

  lemma WakeAllWakes(cs: seq<Consumer>)
    ensures Count(WakeAll(cs), Asleep) == 0
    ensures Count(WakeAll(cs), Exited) == Count(cs, Exited)
  {
    CountPositive(WakeAll(cs), Asleep);
    WakeAllKeeps(cs, Exited);
  }

  lemma {:induction false} WakeAllKeeps(cs: seq<Consumer>, c: Consumer)
    requires c != Asleep && c != Woken
    ensures Count(WakeAll(cs), c) == Count(cs, c)
  {
    if cs == [] {
    } else {
      WakeAllKeeps(cs[..|cs| - 1], c);
      assert WakeAll(cs)[..|cs| - 1] == WakeAll(cs[..|cs| - 1]);
    }
  }

  // The counts of all states after one consumer changed state.
  lemma Counts(cs: seq<Consumer>, i: nat, d: Consumer)
    requires i < |cs|
    ensures forall c {:trigger Count(cs[i := d], c)} ::
              Count(cs[i := d], c) + (if cs[i] == c then 1 else 0) == Count(cs, c) + if d == c then 1 else 0
  {
    forall c ensures Count(cs[i := d], c) + (if cs[i] == c then 1 else 0) == Count(cs, c) + if d == c then 1 else 0 {
      CountUpdate(cs, i, d, c);
    }
  }

  lemma StepKeepsInv<T>(m: Monitor<T>, step: Step<T>)
    requires MonitorInv(m) && Enabled(m, step)
    ensures MonitorInv(Next(m, step))
    ensures |Next(m, step).consumers| == |m.consumers|
    ensures m.closed ==> Next(m, step).closed && Next(m, step).accepted == m.accepted
  {
    match step
    case Push(_) =>
    case Close =>
    case NotifyOne(i) => Counts(m.consumers, i, Woken);
    case NotifyNobody =>
    case NotifyAll => WakeAllWakes(m.consumers);
    case Spurious(i) => Counts(m.consumers, i, Woken);
    case Look(i) => LookKeepsInv(m, i);
    case Finish(i) => Counts(m.consumers, i, Ready);
  }

  lemma LookKeepsInv<T>(m: Monitor<T>, i: nat)
    requires MonitorInv(m) && Enabled(m, Step.Look(i))
    ensures MonitorInv(Next(m, Step.Look(i)))
  {
    if !m.closed && m.queue == [] {
      Counts(m.consumers, i, Asleep);
    } else if m.queue == [] {
      Counts(m.consumers, i, Exited);
    } else {
      Counts(m.consumers, i, Busy);
      assert m.popped + m.queue == (m.popped + [m.queue[0]]) + m.queue[1..];
    }
  }

  function Start<T>(consumers: nat): Monitor<T> {
    Monitor([], false, seq(consumers, _ => Ready), 0, 0, [], [])
  }

  ghost predicate Executes<T>(m: Monitor<T>, steps: seq<Step<T>>)
    decreases |steps|, 0
  {
    steps == [] || (Executes(m, steps[..|steps| - 1]) &&
                    Enabled(After(m, steps[..|steps| - 1]), steps[|steps| - 1]))
  }

  ghost function After<T>(m: Monitor<T>, steps: seq<Step<T>>): Monitor<T>
    requires Executes(m, steps)
    decreases |steps|, 1
  {
    if steps == [] then m else Next(After(m, steps[..|steps| - 1]), steps[|steps| - 1])
  }

  lemma {:induction false} RunKeepsInv<T>(m: Monitor<T>, steps: seq<Step<T>>)
    requires MonitorInv(m) && Executes(m, steps)
    ensures MonitorInv(After(m, steps)) && |After(m, steps).consumers| == |m.consumers|
    ensures m.closed ==> After(m, steps).closed && After(m, steps).accepted == m.accepted
  {
    if steps == [] {
    } else {
      RunKeepsInv(m, steps[..|steps| - 1]);
      StepKeepsInv(After(m, steps[..|steps| - 1]), steps[|steps| - 1]);
    }
  }

  /** In every interleaving of any number of consumers with the producer, values come out in the
      order they went in, and no wakeup is lost: while somebody sleeps there are at least as many
      wakeups under way as values queued, so a queued value never finds everybody asleep for good. */
  lemma NoLostWakeup<T>(consumers: nat, steps: seq<Step<T>>)
    requires consumers > 0 && Executes(Start<T>(consumers), steps)
    ensures var m := After(Start(consumers), steps);
            && m.accepted == m.popped + m.queue
            && (Count(m.consumers, Asleep) == 0 || |m.queue| <= m.notifies + Awake(m))
            && (m.queue == [] || m.notifies > 0 || SomeoneUp(m))
  {
    StartIsValid<T>(consumers);
    RunKeepsInv(Start(consumers), steps);
    var m := After(Start<T>(consumers), steps);
    CountPositive(m.consumers, Asleep);
    CountPositive(m.consumers, Ready);
    CountPositive(m.consumers, Woken);
    CountPositive(m.consumers, Exited);
    if m.queue != [] && Count(m.consumers, Asleep) == 0 {
      assert m.consumers[0] != Asleep && m.consumers[0] != Exited;
    }
  }

  ghost predicate SomeoneUp(m: Monitor) {
    exists i :: 0 <= i < |m.consumers| && m.consumers[i] != Asleep && m.consumers[i] != Exited
  }

  lemma {:induction false} StartIsValid<T>(consumers: nat)
    ensures MonitorInv(Start<T>(consumers))
  {
    CountPositive(Start<T>(consumers).consumers, Asleep);
    CountPositive(Start<T>(consumers).consumers, Exited);
  }

  // ---------- Shutting down ----------

  function Rank(c: Consumer): nat {
    match c
    case Exited => 0
    case Ready => 1
    case Woken => 1
    case Asleep => 2
    case Busy => 2
  }

  function Ranks(cs: seq<Consumer>): nat {
    if cs == [] then 0 else Ranks(cs[..|cs| - 1]) + Rank(cs[|cs| - 1])
  }

  lemma {:induction false} RanksUpdate(cs: seq<Consumer>, i: nat, d: Consumer)
    requires i < |cs|
    ensures Ranks(cs[i := d]) + Rank(cs[i]) == Ranks(cs) + Rank(d)
  {
    var most := cs[..|cs| - 1];
    if i == |cs| - 1 {
      assert cs[i := d][..|cs| - 1] == most;
    } else {
      RanksUpdate(most, i, d);
      assert cs[i := d][..|cs| - 1] == most[i := d];
    }
  }

  lemma {:induction false} RanksWakeAll(cs: seq<Consumer>)
    ensures Ranks(WakeAll(cs)) <= Ranks(cs)
  {
    if cs == [] {
    } else {
      RanksWakeAll(cs[..|cs| - 1]);
      assert WakeAll(cs)[..|cs| - 1] == WakeAll(cs[..|cs| - 1]);
    }
  }

  // What is left to do once the queue is closed.
  function Remaining(m: Monitor): nat {
    2 * |m.queue| + Ranks(m.consumers) + m.notifies + m.broadcasts
  }

  predicate IsInternal<T>(step: Step<T>) {
    !step.Push? && !step.Close?
  }

  /** After the close every step of a consumer or of a pending notification brings the shutdown nearer. */
  lemma ClosedStepDecreases<T>(m: Monitor<T>, step: Step<T>)
    requires m.closed && Enabled(m, step) && IsInternal(step)
    ensures Remaining(Next(m, step)) < Remaining(m)
  {
    match step
    case NotifyOne(i) => RanksUpdate(m.consumers, i, Woken);
    case NotifyNobody =>
    case NotifyAll => RanksWakeAll(m.consumers);
    case Spurious(i) => RanksUpdate(m.consumers, i, Woken);
    case Look(i) => RanksUpdate(m.consumers, i, if m.queue == [] then Exited else Busy);
    case Finish(i) => RanksUpdate(m.consumers, i, Ready);
  }

  /** So joining the workers ends: the steps after a close are at most as many as there was left to do. */
  lemma {:induction false} ShutdownIsBounded<T>(m: Monitor<T>, steps: seq<Step<T>>)
    requires MonitorInv(m) && m.closed && Executes(m, steps)
    requires forall i :: 0 <= i < |steps| ==> IsInternal(steps[i])
    ensures |steps| + Remaining(After(m, steps)) <= Remaining(m)
  {
    if steps == [] {
    } else {
      var most := steps[..|steps| - 1];
      ShutdownIsBounded(m, most);
      RunKeepsInv(m, most);
      ClosedStepDecreases(After(m, most), steps[|steps| - 1]);
    }
  }

  /** And it ends with all done: after a close, as long as a consumer has not exited some internal step
      can be taken; when all have exited, every accepted value was popped. */
  lemma ShutdownIsComplete<T>(m: Monitor<T>)
    requires MonitorInv(m) && m.closed
    ensures (exists step :: IsInternal(step) && Enabled(m, step)) || Count(m.consumers, Exited) == |m.consumers|
    ensures Count(m.consumers, Exited) == |m.consumers| && m.consumers != [] ==> m.popped == m.accepted
  {
    AllOrSome(m.consumers, Exited);
    CountPositive(m.consumers, Asleep);
    if Count(m.consumers, Exited) != |m.consumers| {
      var i :| 0 <= i < |m.consumers| && m.consumers[i] != Exited;
      var step: Step<T> :=
        if m.consumers[i] == Busy then Finish(i)
        else if m.consumers[i] == Asleep then NotifyAll
        else Look(i);
      assert IsInternal(step) && Enabled(m, step);
    }
  }

  lemma {:induction false} AllOrSome(cs: seq<Consumer>, c: Consumer)
    ensures Count(cs, c) <= |cs|
    ensures Count(cs, c) == |cs| || exists i :: 0 <= i < |cs| && cs[i] != c
  {
    if cs == [] {
    } else {
      var most := cs[..|cs| - 1];
      AllOrSome(most, c);
      if i :| 0 <= i < |most| && most[i] != c {
        assert cs[i] != c;
      }
    }
  }
}

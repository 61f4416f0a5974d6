/** From wherever the server is, the workers and the event loop can finish all that was asked for: as long
    as there is a worker, some bounded run of theirs answers every request. */
module Progress {
  import opened World
  import opened Server
  import opened ServerCore
  import opened ServerSteps
  import opened ServerClosing
  import opened ServerOutbound
  import opened Tables
  import opened System
  import opened Runs

  // A step that serves what was asked for: of a worker, or of the loop towards taking completions.
  predicate IsServing(step: SystemStep) {
    IsWorkers(step) || (IsDraining(step) && !step.Rearm?)
  }

  // ---------- What is left to do ----------

  function Rank(worker: Worker): nat {
    match worker
    case Idle => 0
    case Executing(_) => 5
    case Executed(_) => 4
    case Signalling => 2
  }

  function Ranks(workers: seq<Worker>): nat {
    if workers == [] then 0 else Ranks(workers[..|workers| - 1]) + Rank(workers[|workers| - 1])
  }

  // How many serving steps there can still be.
  function Work(s: SystemState): nat {
    6 * |s.server.jobs| + Ranks(s.workers) + ToDrain(s)
  }

  lemma {:induction false} RanksUpdate(workers: seq<Worker>, i: nat, w: Worker)
    requires i < |workers|
    ensures Ranks(workers[i := w]) + Rank(workers[i]) == Ranks(workers) + Rank(w)
  {
    var most := workers[..|workers| - 1];
    if i == |workers| - 1 {
      assert workers[i := w][..|workers| - 1] == most;
    } else {
      RanksUpdate(most, i, w);
      assert workers[i := w][..|workers| - 1] == most[i := w];
    }
  }

  lemma WorkerStepDecreases(cfg: Config, s: SystemState, step: SystemStep)
    requires Enabled(cfg, s, step) && IsWorkers(step)
    ensures Work(Next(cfg, s, step)) < Work(s)
  {
    match step
    case Take(i) => RanksUpdate(s.workers, i, Executing(s.server.jobs[0]));
    case Execute(i, ok, line) =>
      RanksUpdate(s.workers, i, Executed(DbCompletion(s.workers[i].job.ticket, ok, line)));
    case Push(i) => RanksUpdate(s.workers, i, Signalling);
    case Signal(i) => RanksUpdate(s.workers, i, Idle);
  }

  lemma LoopStepDecreases(cfg: Config, s: SystemState, step: SystemStep)
    requires Running(cfg, s) && Enabled(cfg, s, step) && IsDraining(step) && !step.Rearm?
    ensures Work(Next(cfg, s, step)) < Work(s)
  {
    DrainingStepsDecrease(cfg, s, step);
    if step.PopCompletion? {
      PopSubmitsNothing(cfg, s);
    }
  }

  lemma PopSubmitsNothing(cfg: Config, s: SystemState)
    requires Running(cfg, s) && Enabled(cfg, s, PopCompletion)
    ensures Next(cfg, s, PopCompletion).server.jobs == s.server.jobs
  {
    RunningInv(cfg, s);
    PopIsOutstanding(cfg, s);
    OnCompletionKeepsInv(cfg, s.server, s.completions[0]);
  }

  // ---------- There is always something to do ----------

  predicate AllIdle(workers: seq<Worker>) {
    forall i :: 0 <= i < |workers| ==> workers[i] == Idle
  }

  lemma BusyWorkerGoesOn(cfg: Config, s: SystemState) returns (step: SystemStep)
    requires !s.server.terminated && !AllIdle(s.workers)
    ensures IsServing(step) && Enabled(cfg, s, step)
  {
    var i :| 0 <= i < |s.workers| && s.workers[i] != Idle;
    match s.workers[i]
    case Executing(_) => step := System.Execute(i, false, "");
    case Executed(_) => step := Push(i);
    case Signalling => step := Signal(i);
  }

  lemma SomethingToDo(cfg: Config, s: SystemState) returns (step: SystemStep)
    requires Running(cfg, s) && s.workers != [] && InPipeline(s) != multiset{}
    ensures IsServing(step) && Enabled(cfg, s, step)
  {
    if !AllIdle(s.workers) {
      step := BusyWorkerGoesOn(cfg, s);
    } else if s.server.jobs != [] {
      step := Take(0);
    } else {
      NoneExecuting(s.workers);
      assert s.completions != [];
      step := LoopGoesOn(cfg, s);
    }
  }

  lemma LoopGoesOn(cfg: Config, s: SystemState) returns (step: SystemStep)
    requires Running(cfg, s) && AllIdle(s.workers) && s.completions != []
    ensures IsServing(step) && Enabled(cfg, s, step)
  {
    DrainingMakesProgress(cfg, s);
    step :| IsDraining(step) && !step.Rearm? && Enabled(cfg, s, step);
  }

  // ---------- Nothing else happens ----------

  // The same connections, open or not, with more lines queued at most.
  ghost predicate OnlyQueued(a: Histories, b: Histories) {
    && b.Keys == a.Keys
    && forall q :: q in a ==> b[q].ending == a[q].ending && a[q].queued <= b[q].queued
  }

  lemma ServingOnlyQueues(cfg: Config, s: SystemState, step: SystemStep)
    requires Running(cfg, s) && Enabled(cfg, s, step) && IsServing(step)
    ensures OnlyQueued(s.server.hist, Next(cfg, s, step).server.hist)
    ensures !Next(cfg, s, step).server.terminated && Next(cfg, s, step).submitted == s.submitted
  {
    if step.PopCompletion? {
      PopOnlyQueues(cfg, s);
    } else {
      OthersOnlyWork(cfg, s, step);
    }
  }

  lemma OthersOnlyWork(cfg: Config, s: SystemState, step: SystemStep)
    requires Enabled(cfg, s, step) && IsServing(step) && !step.PopCompletion?
    ensures var r := Next(cfg, s, step);
            r.server.hist == s.server.hist && !r.server.terminated && r.submitted == s.submitted
  {
  }

  lemma PopOnlyQueues(cfg: Config, s: SystemState)
    requires Running(cfg, s) && Enabled(cfg, s, PopCompletion)
    ensures var r := Next(cfg, s, PopCompletion);
            OnlyQueued(s.server.hist, r.server.hist) && !r.server.terminated && r.submitted == s.submitted
  {
    RunningInv(cfg, s);
    PopIsOutstanding(cfg, s);
    CompletionOnlyQueues(cfg, s.server, s.completions[0]);
    CompletionGoesOn(cfg, s.server, s.completions[0]);
  }

  lemma CompletionOnlyQueues(cfg: Config, s: ServerState, c: DbCompletion)
    requires Core(cfg, s) && c.ticket in s.outstanding
    ensures OnlyQueued(s.hist, OnCompletion(cfg, s, c).hist)
  {
    if c.ticket.notify && IsLive(s, c.ticket.ref) {
      AnsweredKeepsCore(cfg, s, c);
      OpenIsPrefix(cfg, s, c.ticket.ref);
      ReplyOnlyQueues(s.hist, c.ticket.ref, Answer(c.ticket.id, c.ok, c.line));
    }
  }

  lemma ReplyOnlyQueues(hist: Histories, ref: SessionRef, reply: Reply)
    requires ref in hist
    ensures OnlyQueued(hist, WithReply(hist, ref, reply))
  {
  }

  lemma ReachableNext(cfg: Config, s: SystemState, step: SystemStep)
    requires Reachable(cfg, s) && Enabled(cfg, s, step)
    ensures Reachable(cfg, Next(cfg, s, step))
  {
    var workers, database :| ReachableFrom(cfg, workers, database, s);
    ReachableFromNext(cfg, workers, database, s, step);
  }

  lemma ReachableFromNext(cfg: Config, workers: nat, database: Database, s: SystemState, step: SystemStep)
    requires ReachableFrom(cfg, workers, database, s) && Enabled(cfg, s, step)
    ensures ReachableFrom(cfg, workers, database, Next(cfg, s, step))
  {
    var start := Start(workers, database);
    var steps :| Executes(cfg, start, steps) && s == After(cfg, start, steps);
    RunMore(cfg, start, steps, step);
  }

  // ---------- A run that answers everything ----------

  // What a run of serving steps has done from one state to another.
  ghost predicate Served(s: SystemState, r: SystemState, steps: seq<SystemStep>) {
    && (forall i :: 0 <= i < |steps| ==> IsServing(steps[i]))
    && |steps| + Work(r) <= Work(s)
    && OnlyQueued(s.server.hist, r.server.hist) && r.submitted == s.submitted
  }

  lemma ServedOnce(cfg: Config, s: SystemState, step: SystemStep)
    requires Running(cfg, s) && Enabled(cfg, s, step) && IsServing(step)
    ensures Running(cfg, Next(cfg, s, step)) && Served(s, Next(cfg, s, step), [step])
    ensures |Next(cfg, s, step).workers| == |s.workers|
  {
    ReachableNext(cfg, s, step);
    ServingOnlyQueues(cfg, s, step);
    StepKeepsWorkers(cfg, s, step);
    if IsWorkers(step) {
      WorkerStepDecreases(cfg, s, step);
    } else {
      LoopStepDecreases(cfg, s, step);
    }
  }

  lemma ServedTransitive(a: SystemState, b: SystemState, c: SystemState, x: seq<SystemStep>, y: seq<SystemStep>)
    requires Served(a, b, x) && Served(b, c, y)
    ensures Served(a, c, x + y)
  {
    forall q | q in a.server.hist
      ensures c.server.hist[q].ending == a.server.hist[q].ending
      ensures a.server.hist[q].queued <= c.server.hist[q].queued
    {
      assert a.server.hist[q].queued <= b.server.hist[q].queued <= c.server.hist[q].queued;
    }
  }

  lemma {:induction false} RunCons(cfg: Config, s: SystemState, step: SystemStep, steps: seq<SystemStep>)
    requires Enabled(cfg, s, step) && Executes(cfg, Next(cfg, s, step), steps)
    ensures Executes(cfg, s, [step] + steps)
    ensures After(cfg, s, [step] + steps) == After(cfg, Next(cfg, s, step), steps)
  {
    ConsSnoc(step, steps);
    if steps == [] {
      RunMore(cfg, s, [], step);
    } else {
      RunCons(cfg, s, step, steps[..|steps| - 1]);
      RunMore(cfg, s, [step] + steps[..|steps| - 1], steps[|steps| - 1]);
    }
  }

  lemma ConsSnoc<T>(a: T, b: seq<T>)
    ensures b == [] ==> [a] + b == [] + [a]
    ensures b != [] ==> [a] + b == ([a] + b[..|b| - 1]) + [b[|b| - 1]]
  {
  }

  lemma {:induction false} ServeAll(cfg: Config, s: SystemState) returns (steps: seq<SystemStep>)
    requires Running(cfg, s) && s.workers != []
    ensures Executes(cfg, s, steps)
    ensures var r := After(cfg, s, steps);
            Running(cfg, r) && Served(s, r, steps) && InPipeline(r) == multiset{}
    decreases Work(s)
  {
    if InPipeline(s) == multiset{} {
      steps := [];
    } else {
      var step := SomethingToDo(cfg, s);
      ServedOnce(cfg, s, step);
      var rest := ServeAll(cfg, Next(cfg, s, step));
      RunCons(cfg, s, step, rest);
      steps := [step] + rest;
      ServedTransitive(s, Next(cfg, s, step), After(cfg, s, steps), [step], rest);
    }
  }

  // Every request that had been announced on a connection that was open is answered there.
  ghost predicate AllAnswered(s: SystemState, r: SystemState) {
    && InPipeline(r) == multiset{}
    && forall q, i, id: nat :: PendingAt(s.server.hist, q, i, id) && s.server.hist[q].ending == Open ==>
         Answered(r.server.hist, q, id)
  }

  lemma NothingLeftIsAnswered(cfg: Config, s: SystemState, r: SystemState)
    requires Running(cfg, r) && InPipeline(r) == multiset{} && OnlyQueued(s.server.hist, r.server.hist)
    ensures AllAnswered(s, r)
  {
    RepliesMatchRequests(cfg, r);
    forall q, i, id: nat | PendingAt(s.server.hist, q, i, id) && s.server.hist[q].ending == Open
      ensures Answered(r.server.hist, q, id)
    {
      assert r.server.hist[q].queued[i] == s.server.hist[q].queued[i];
      assert PendingAt(r.server.hist, q, i, id);
      assert Ticket(q, id, true) !in InPipeline(r);
    }
  }

  /** As long as there is a worker: from every state of every run some steps of the workers and of the loop
      alone, no more than there is work left, answer every request that was announced on an open
      connection, and leave nothing queued, executing or completed. */
  lemma EverythingCanBeAnswered(cfg: Config, s: SystemState)
    requires Running(cfg, s) && s.workers != []
    ensures exists steps ::
              && Executes(cfg, s, steps) && |steps| <= Work(s)
              && (forall i :: 0 <= i < |steps| ==> IsServing(steps[i]))
              && AllAnswered(s, After(cfg, s, steps))
  {
    var steps := ServeAll(cfg, s);
    NothingLeftIsAnswered(cfg, s, After(cfg, s, steps));
  }

  /** Whatever serving steps are taken, they come to an end: there are no more than there is work left, and
      while anything is queued, executing or completed another one can be taken. */
  lemma ServingComesToAnEnd(cfg: Config, s: SystemState, step: SystemStep)
    requires Running(cfg, s) && Enabled(cfg, s, step) && IsServing(step)
    ensures Work(Next(cfg, s, step)) < Work(s)
    ensures s.workers != [] && InPipeline(s) != multiset{} ==>
              exists other :: IsServing(other) && Enabled(cfg, s, other)
  {
    ServedOnce(cfg, s, step);
  }

  /** Without a worker nothing is ever answered. */
  lemma {:induction false} NobodyAnswers(cfg: Config, database: Database, steps: seq<SystemStep>)
    requires Executes(cfg, Start(0, database), steps)
    ensures var s := After(cfg, Start(0, database), steps);
            s.workers == [] && s.completions == [] && s.executed == [] && s.started == []
  {
    if steps == [] {
    } else {
      NobodyAnswers(cfg, database, steps[..|steps| - 1]);
      NobodyWorks(cfg, After(cfg, Start(0, database), steps[..|steps| - 1]), steps[|steps| - 1]);
    }
  }

  lemma NobodyWorks(cfg: Config, s: SystemState, step: SystemStep)
    requires Enabled(cfg, s, step) && s.workers == [] && s.completions == []
    ensures var r := Next(cfg, s, step);
            r.workers == [] && r.completions == [] && r.executed == s.executed && r.started == s.started
  {
  }
}

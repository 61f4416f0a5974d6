/** The event loop together with the database workers, the completion queue and the eventfd, as one
    transition system: every completion handler is one step, except that taking completions is one
    step each, and every worker interleaves with it job by job. */
module System {
  import opened Decimal
  import opened World
  import opened Server
  import opened ServerInvariant
  import opened ServerHandlers
  import opened ServerOutbound
  import opened ServerJobs
  import T = Tables
  import opened Tables

  // A worker waits for a job, executes one, has executed it and not yet pushed the completion, or has
  // pushed it and not yet written the eventfd.
  datatype Worker = Idle | Executing(job: DbJob) | Executed(completion: DbCompletion) | Signalling

  // The event loop waits for completions, reads the eventfd dry, or takes database completions.
  datatype Phase = Waiting | Draining | Popping

  datatype SystemState = SystemState(
    server: ServerState,
    workers: seq<Worker>,
    completions: seq<DbCompletion>,
    counter: nat,              // of the eventfd
    phase: Phase,
    tables: Database,          // what the workers have committed
    submitted: seq<DbJob>,     // history
    started: seq<DbJob>,       // history
    executed: seq<Execution>,  // history
    popped: seq<Ticket>)       // history

  // An eventfd counter saturates here: a write then fails with EAGAIN.
  const COUNTER_MAX: nat := 0xffff_ffff_ffff_fffe

  datatype SystemStep =
    | Accept(fd: Option<int>)
    | Receive(ref: SessionRef, chunk: string)
    | Sent(ref: SessionRef, payload: string, n: nat)
    | Wake
    | ReadCounter
    | ReadEmpty
    | PopCompletion
    | Rearm
    | Take(i: nat)
    | Execute(i: nat, ok: bool, line: string)
    | Push(i: nat)
    | Signal(i: nat)

  function Start(workers: nat, tables: Database): SystemState {
    SystemState(Initial(), seq(workers, _ => Idle), [], 0, Waiting, tables, [], [], [], [])
  }

  predicate Enabled(cfg: Config, s: SystemState, step: SystemStep) {
    !s.server.terminated &&
    match step
    case Accept(fd) =>
      s.phase == Waiting && AcceptToken in s.server.tokens && (fd.Some? ==> fd.value !in s.server.openFds)
    case Receive(ref, chunk) =>
      s.phase == Waiting && RecvToken(ref) in s.server.tokens && |chunk| <= cfg.recvBuffer
    case Sent(ref, payload, n) =>
      s.phase == Waiting && SendToken(ref, payload) in s.server.tokens && n <= |payload|
    case Wake => s.phase == Waiting && DatabaseToken in s.server.tokens && s.counter > 0
    case ReadCounter => s.phase == Draining && s.counter > 0
    case ReadEmpty => s.phase == Draining && s.counter == 0
    case PopCompletion => s.phase == Popping && s.completions != []
    case Rearm => s.phase == Popping && s.completions == []
    case Take(i) => i < |s.workers| && s.workers[i] == Idle && s.server.jobs != []
    case Execute(i, ok, _) =>
      i < |s.workers| && s.workers[i].Executing? && (ok ==> Commit(s.tables, s.workers[i].job).Some?)
    case Push(i) => i < |s.workers| && s.workers[i].Executed?
    case Signal(i) => i < |s.workers| && s.workers[i] == Signalling
  }

  // The server made a step of its own.
  function Serve(s: SystemState, server: ServerState): SystemState {
    s.(server := server,
       submitted := s.submitted + if |s.server.jobs| <= |server.jobs| then server.jobs[|s.server.jobs|..] else [])
  }

  function Next(cfg: Config, s: SystemState, step: SystemStep): SystemState
    requires Enabled(cfg, s, step)
  {
    match step
    case Accept(fd) => Serve(s, OnAccept(cfg, s.server, fd))
    case Receive(ref, chunk) => Serve(s, OnRecv(cfg, s.server, ref, chunk))
    case Sent(ref, payload, n) => Serve(s, OnSent(cfg, s.server, ref, payload, n))
    case Wake => s.(server := Consume(s.server, DatabaseToken), phase := Draining)
    case ReadCounter => s.(counter := 0)
    case ReadEmpty => s.(phase := Popping)
    case PopCompletion =>
      var c := s.completions[0];
      s.(server := OnCompletion(cfg, s.server, c), completions := s.completions[1..], popped := s.popped + [c.ticket])
    case Rearm =>
      s.(server := s.server.(tokens := s.server.tokens + multiset{DatabaseToken}), phase := Waiting)
    case Take(i) =>
      var job := s.server.jobs[0];
      s.(server := s.server.(jobs := s.server.jobs[1..]), workers := s.workers[i := Executing(job)],
         started := s.started + [job])
    case Execute(i, ok, line) =>
      var job := s.workers[i].job;
      var e := Execution(job, ok, line);
      s.(tables := T.Execute(s.tables, e), executed := s.executed + [e],
         workers := s.workers[i := Executed(DbCompletion(job.ticket, ok, line))])
    case Push(i) =>
      s.(completions := s.completions + [s.workers[i].completion], workers := s.workers[i := Signalling])
    case Signal(i) =>
      s.(counter := if s.counter < COUNTER_MAX then s.counter + 1 else s.counter, workers := s.workers[i := Idle])
  }

  // ---------- Where the tickets are ----------

  function TicketOf(worker: Worker): multiset<Ticket> {
    match worker
    case Executing(job) => multiset{job.ticket}
    case Executed(completion) => multiset{completion.ticket}
    case _ => multiset{}
  }

  function WorkerTickets(workers: seq<Worker>): multiset<Ticket> {
    if workers == [] then multiset{}
    else WorkerTickets(workers[..|workers| - 1]) + TicketOf(workers[|workers| - 1])
  }

  function CompletionTickets(completions: seq<DbCompletion>): seq<Ticket> {
    seq(|completions|, i requires 0 <= i < |completions| => completions[i].ticket)
  }

  // Every ticket not yet answered, once for each place it is at.
  function InPipeline(s: SystemState): multiset<Ticket> {
    multiset(Tickets(s.server.jobs)) + WorkerTickets(s.workers) + multiset(CompletionTickets(s.completions))
  }

  lemma Exchange<T>(a: multiset<T>, b: multiset<T>, c: multiset<T>, d: multiset<T>, e: multiset<T>)
    requires a + b == c + d
    ensures (a + e) + b == (c + e) + d
  {
    assert (a + e) + b == (a + b) + e && (c + e) + d == (c + d) + e;
  }

  lemma {:induction false} WorkerUpdate(workers: seq<Worker>, i: nat, w: Worker)
    requires i < |workers|
    ensures WorkerTickets(workers[i := w]) + TicketOf(workers[i]) == WorkerTickets(workers) + TicketOf(w)
  {
    var most := workers[..|workers| - 1];
    var updated := workers[i := w];
    if i == |workers| - 1 {
      assert updated[..|workers| - 1] == most;
    } else {
      WorkerUpdate(most, i, w);
      assert updated[..|workers| - 1] == most[i := w];
      Exchange(WorkerTickets(most[i := w]), TicketOf(workers[i]), WorkerTickets(most), TicketOf(w),
               TicketOf(workers[|workers| - 1]));
    }
  }

  lemma {:induction false} NoWorkerTickets(n: nat)
    ensures WorkerTickets(seq(n, _ => Idle)) == multiset{}
  {
    if n == 0 {
    } else {
      NoWorkerTickets(n - 1);
      assert seq(n, _ => Idle)[..n - 1] == seq(n - 1, _ => Idle);
    }
  }

  lemma TicketsCons(jobs: seq<DbJob>)
    requires jobs != []
    ensures Tickets(jobs) == [jobs[0].ticket] + Tickets(jobs[1..])
  {
  }

  lemma CompletionTicketsAppend(cs: seq<DbCompletion>, c: DbCompletion)
    ensures CompletionTickets(cs + [c]) == CompletionTickets(cs) + [c.ticket]
  {
  }

  lemma CompletionTicketsCons(cs: seq<DbCompletion>)
    requires cs != []
    ensures CompletionTickets(cs) == [cs[0].ticket] + CompletionTickets(cs[1..])
  {
  }

  // ---------- The invariant ----------

  ghost predicate SomeoneSignals(workers: seq<Worker>) {
    exists i :: 0 <= i < |workers| && workers[i] == Signalling
  }

  // A completion never waits unseen: the loop is about to look, or the eventfd is readable, or a
  // worker is about to make it so.
  ghost predicate NoLostWakeup(s: SystemState) {
    s.completions != [] ==> s.phase != Waiting || s.counter > 0 || SomeoneSignals(s.workers)
  }

  ghost predicate Conserved(s: SystemState) {
    && InPipeline(s) == multiset(s.server.outstanding)
    && multiset(Tickets(s.submitted)) == InPipeline(s) + multiset(s.popped)
    && s.submitted == s.started + s.server.jobs
  }

  // The i-th job ever submitted carries id i + 1, all are well-formed, and what each connection's
  // history records are the position saves and the requests submitted for it.
  ghost predicate Recorded(s: SystemState) {
    && NumberedFrom(s.submitted, 1) && s.server.nextRequestId == 1 + |s.submitted|
    && AllWellFormed(s.submitted)
    && MoreRecords(map[], s.server.hist, s.submitted)
  }

  // The poll of the eventfd is in flight exactly while the loop waits.
  ghost predicate Polled(s: SystemState) {
    s.server.tokens[DatabaseToken] == if s.phase == Waiting then 1 else 0
  }

  ghost predicate SystemInv(cfg: Config, s: SystemState) {
    && (s.server.terminated || (Inv(cfg, s.server) && Conserved(s) && Recorded(s) && Polled(s)))
    && NoLostWakeup(s)
  }

  lemma StartInv(cfg: Config, workers: nat, tables: Database)
    ensures SystemInv(cfg, Start(workers, tables))
  {
    InitialInv(cfg);
    NoWorkerTickets(workers);
  }

  lemma ServeConserves(s: SystemState, server: ServerState)
    requires Conserved(s) && Grown(s.server, server)
    ensures Conserved(Serve(s, server))
  {
    var more := server.jobs[|s.server.jobs|..];
    assert server.jobs == s.server.jobs + more;
    TicketsConcat(s.server.jobs, more);
    TicketsConcat(s.submitted, more);
    assert s.submitted + more == s.started + server.jobs;
  }

  lemma ServeRecords(s: SystemState, server: ServerState)
    requires Recorded(s) && Grown(s.server, server)
    ensures Recorded(Serve(s, server))
  {
    MoreAndMoreRecords(map[], s.server.hist, server.hist, s.submitted, server.jobs[|s.server.jobs|..]);
  }

  lemma PopRecords(cfg: Config, s: SystemState)
    requires Recorded(s) && Conserved(s) && Inv(cfg, s.server) && Enabled(cfg, s, PopCompletion)
    ensures Recorded(Next(cfg, s, PopCompletion))
  {
    PopIsOutstanding(cfg, s);
    OnCompletionAnswers(cfg, s.server, s.completions[0]);
    RecordsStay(s, Next(cfg, s, PopCompletion));
  }

  lemma RecordsStay(s: SystemState, r: SystemState)
    requires Recorded(s) && MoreRecords(s.server.hist, r.server.hist, [])
    requires r.server.nextRequestId == s.server.nextRequestId && r.submitted == s.submitted
    ensures Recorded(r)
  {
    MoreAndMoreRecords(map[], s.server.hist, r.server.hist, s.submitted, []);
    assert s.submitted + [] == s.submitted;
  }

  lemma TakeConserves(cfg: Config, s: SystemState, i: nat)
    requires Conserved(s) && Enabled(cfg, s, Take(i))
    ensures Conserved(Next(cfg, s, Take(i)))
  {
    TakeKeepsPipeline(cfg, s, i);
    FrontMoves(s.started, s.server.jobs);
  }

  lemma FrontMoves<T>(a: seq<T>, b: seq<T>)
    requires b != []
    ensures a + b == (a + [b[0]]) + b[1..]
  {
  }

  // A ticket moves from the jobs to a worker.
  lemma JobToWorker<T>(jobs: multiset<T>, rest: multiset<T>, a: multiset<T>, b: multiset<T>, c: multiset<T>, t: T)
    requires jobs == multiset{t} + rest && b == a + multiset{t}
    ensures rest + b + c == jobs + a + c
  {
  }

  lemma TakeKeepsPipeline(cfg: Config, s: SystemState, i: nat)
    requires Enabled(cfg, s, Take(i))
    ensures InPipeline(Next(cfg, s, Take(i))) == InPipeline(s)
  {
    var job := s.server.jobs[0];
    WorkerUpdate(s.workers, i, Executing(job));
    TicketsCons(s.server.jobs);
    JobToWorker(multiset(Tickets(s.server.jobs)), multiset(Tickets(s.server.jobs[1..])), WorkerTickets(s.workers),
                WorkerTickets(s.workers[i := Executing(job)]), multiset(CompletionTickets(s.completions)), job.ticket);
  }

  // A ticket moves from a worker to the completions.
  lemma WorkerToCompletion<T>(j: multiset<T>, a: multiset<T>, b: multiset<T>, c: multiset<T>, d: multiset<T>, t: T)
    requires b + multiset{t} == a && d == c + multiset{t}
    ensures j + b + d == j + a + c
  {
  }

  // The ticket stays with the worker.
  lemma ExecuteConserves(cfg: Config, s: SystemState, i: nat, ok: bool, line: string)
    requires Conserved(s) && Enabled(cfg, s, Execute(i, ok, line))
    ensures Conserved(Next(cfg, s, Execute(i, ok, line)))
  {
    var w := Executed(DbCompletion(s.workers[i].job.ticket, ok, line));
    WorkerUpdate(s.workers, i, w);
    SameTicket(WorkerTickets(s.workers[i := w]), WorkerTickets(s.workers), TicketOf(w));
  }

  lemma SameTicket<T>(a: multiset<T>, b: multiset<T>, c: multiset<T>)
    requires a + c == b + c
    ensures a == b
  {
    assert a == (a + c) - c && b == (b + c) - c;
  }

  lemma PushConserves(cfg: Config, s: SystemState, i: nat)
    requires Conserved(s) && Enabled(cfg, s, Push(i))
    ensures Conserved(Next(cfg, s, Push(i)))
  {
    var c := s.workers[i].completion;
    WorkerUpdate(s.workers, i, Signalling);
    CompletionTicketsAppend(s.completions, c);
    WorkerToCompletion(multiset(Tickets(s.server.jobs)), WorkerTickets(s.workers),
                       WorkerTickets(s.workers[i := Signalling]), multiset(CompletionTickets(s.completions)),
                       multiset(CompletionTickets(s.completions + [c])), c.ticket);
  }

  lemma PopIsOutstanding(cfg: Config, s: SystemState)
    requires Conserved(s) && s.completions != []
    ensures s.completions[0].ticket in s.server.outstanding
  {
    CompletionTicketsCons(s.completions);
    assert s.completions[0].ticket in InPipeline(s);
  }

  // A ticket leaves the completions, and is no longer outstanding.
  lemma CompletionPopped<T>(
    j: multiset<T>, c: multiset<T>, rest: multiset<T>, all: multiset<T>, popped: multiset<T>, s: multiset<T>, t: T)
    requires c == multiset{t} + rest && j + c == all && s == all + popped
    ensures j + rest == all - multiset{t}
    ensures s == (j + rest) + (popped + multiset{t})
  {
  }

  lemma PopConserves(cfg: Config, s: SystemState)
    requires Conserved(s) && Enabled(cfg, s, PopCompletion) && Inv(cfg, s.server)
    ensures Conserved(Next(cfg, s, PopCompletion))
  {
    PopIsOutstanding(cfg, s);
    var c := s.completions[0];
    OnCompletionKeepsInv(cfg, s.server, c);
    CompletionTicketsCons(s.completions);
    OneTicketLess(s.server.outstanding, c.ticket);
    CompletionPopped(multiset(Tickets(s.server.jobs)) + WorkerTickets(s.workers),
                     multiset(CompletionTickets(s.completions)), multiset(CompletionTickets(s.completions[1..])),
                     multiset(s.server.outstanding), multiset(s.popped), multiset(Tickets(s.submitted)), c.ticket);
  }

  lemma OneTicketLess(outstanding: set<Ticket>, t: Ticket)
    requires t in outstanding
    ensures multiset(outstanding - {t}) == multiset(outstanding) - multiset{t}
  {
  }

  predicate IsWorkers(step: SystemStep) {
    step.Take? || step.Execute? || step.Push? || step.Signal?
  }

  lemma WorkerStepKeepsInv(cfg: Config, s: SystemState, step: SystemStep)
    requires SystemInv(cfg, s) && Enabled(cfg, s, step) && IsWorkers(step)
    ensures SystemInv(cfg, Next(cfg, s, step))
  {
    match step
    case Take(i) => TakeKeepsInv(cfg, s, i);
    case Execute(i, ok, line) => ExecuteKeepsInv(cfg, s, i, ok, line);
    case Push(i) => PushKeepsInv(cfg, s, i);
    case Signal(i) => SignalKeepsInv(cfg, s, i);
  }

  lemma TakeKeepsInv(cfg: Config, s: SystemState, i: nat)
    requires SystemInv(cfg, s) && Enabled(cfg, s, Take(i))
    ensures SystemInv(cfg, Next(cfg, s, Take(i)))
  {
    var job := s.server.jobs[0];
    TakeConserves(cfg, s, i);
    StillSignals(s.workers, i, Executing(job));
    JobsKeepInv(cfg, s.server, s.server.jobs[1..]);
  }

  lemma JobsKeepInv(cfg: Config, s: ServerState, jobs: seq<DbJob>)
    requires Inv(cfg, s)
    ensures Inv(cfg, s.(jobs := jobs))
  {
  }

  lemma ExecuteKeepsInv(cfg: Config, s: SystemState, i: nat, ok: bool, line: string)
    requires SystemInv(cfg, s) && Enabled(cfg, s, Execute(i, ok, line))
    ensures SystemInv(cfg, Next(cfg, s, Execute(i, ok, line)))
  {
    ExecuteConserves(cfg, s, i, ok, line);
    StillSignals(s.workers, i, Executed(DbCompletion(s.workers[i].job.ticket, ok, line)));
    SameServerKeepsInv(cfg, s, Next(cfg, s, Execute(i, ok, line)));
  }

  lemma PushKeepsInv(cfg: Config, s: SystemState, i: nat)
    requires SystemInv(cfg, s) && Enabled(cfg, s, Push(i))
    ensures SystemInv(cfg, Next(cfg, s, Push(i)))
  {
    PushConserves(cfg, s, i);
    assert s.workers[i := Signalling][i] == Signalling;
    SameServerKeepsInv(cfg, s, Next(cfg, s, Push(i)));
  }

  lemma NothingMore<T>(a: multiset<T>, b: multiset<T>)
    requires a + multiset{} == b + multiset{}
    ensures a == b
  {
    assert a + multiset{} == a && b + multiset{} == b;
  }

  lemma SignalConserves(cfg: Config, s: SystemState, i: nat)
    requires Conserved(s) && Enabled(cfg, s, Signal(i))
    ensures Conserved(Next(cfg, s, Signal(i)))
  {
    WorkerUpdate(s.workers, i, Idle);
    NothingMore(WorkerTickets(s.workers[i := Idle]), WorkerTickets(s.workers));
  }

  lemma SignalKeepsInv(cfg: Config, s: SystemState, i: nat)
    requires SystemInv(cfg, s) && Enabled(cfg, s, Signal(i))
    ensures SystemInv(cfg, Next(cfg, s, Signal(i)))
  {
    SignalConserves(cfg, s, i);
    SignalIsHeard(cfg, s, i);
    SameServerKeepsInv(cfg, s, Next(cfg, s, Signal(i)));
  }

  // Also when the counter is saturated it stays positive.
  lemma SignalIsHeard(cfg: Config, s: SystemState, i: nat)
    requires Enabled(cfg, s, Signal(i))
    ensures Next(cfg, s, Signal(i)).counter > 0
  {
  }

  lemma SameServerKeepsInv(cfg: Config, s: SystemState, r: SystemState)
    requires SystemInv(cfg, s) && r.server == s.server && r.phase == s.phase
    requires Conserved(r) && r.submitted == s.submitted && NoLostWakeup(r)
    ensures SystemInv(cfg, r)
  {
  }

  lemma StillSignals(workers: seq<Worker>, i: nat, w: Worker)
    requires i < |workers| && workers[i] != Signalling
    ensures SomeoneSignals(workers) ==> SomeoneSignals(workers[i := w])
  {
    if j :| 0 <= j < |workers| && workers[j] == Signalling {
      assert workers[i := w][j] == Signalling;
    }
  }

  lemma ServerStepKeepsInv(cfg: Config, s: SystemState, step: SystemStep)
    requires SystemInv(cfg, s) && Enabled(cfg, s, step) && ValidOrder(cfg.order)
    requires step.Accept? || step.Receive? || step.Sent?
    ensures SystemInv(cfg, Next(cfg, s, step))
  {
    match step
    case Accept(fd) =>
      OnAcceptKeepsInv(cfg, s.server, fd);
      OnAcceptGrows(cfg, s.server, fd);
      ServeConserves(s, OnAccept(cfg, s.server, fd));
      ServeRecords(s, OnAccept(cfg, s.server, fd));
    case Receive(ref, chunk) =>
      OnRecvKeepsInv(cfg, s.server, ref, chunk);
      OnRecvGrows(cfg, s.server, ref, chunk);
      ServeConserves(s, OnRecv(cfg, s.server, ref, chunk));
      ServeRecords(s, OnRecv(cfg, s.server, ref, chunk));
    case Sent(ref, payload, n) =>
      OnSentKeepsInv(cfg, s.server, ref, payload, n);
      OnSentGrows(cfg, s.server, ref, payload, n);
      ServeConserves(s, OnSent(cfg, s.server, ref, payload, n));
      ServeRecords(s, OnSent(cfg, s.server, ref, payload, n));
  }

  lemma PopKeepsInv(cfg: Config, s: SystemState)
    requires SystemInv(cfg, s) && Enabled(cfg, s, PopCompletion)
    ensures SystemInv(cfg, Next(cfg, s, PopCompletion))
  {
    PopIsOutstanding(cfg, s);
    PopConserves(cfg, s);
    PopRecords(cfg, s);
    OnCompletionKeepsInv(cfg, s.server, s.completions[0]);
  }

  lemma PollKeepsInv(cfg: Config, s: SystemState, tokens: multiset<Token>, phase: Phase)
    requires Inv(cfg, s.server) && Conserved(s) && Recorded(s) &&
             forall t: Token :: t != DatabaseToken ==> tokens[t] == s.server.tokens[t]
    requires tokens[DatabaseToken] == if phase == Waiting then 1 else 0
    requires phase == Waiting ==> s.completions == []
    ensures SystemInv(cfg, s.(server := s.server.(tokens := tokens), phase := phase))
  {
    DatabaseTokenKeepsInv(cfg, s.server, tokens);
  }

  lemma DatabaseStepKeepsInv(cfg: Config, s: SystemState, step: SystemStep)
    requires SystemInv(cfg, s) && Enabled(cfg, s, step)
    requires step.Wake? || step.ReadCounter? || step.ReadEmpty? || step.PopCompletion? || step.Rearm?
    ensures SystemInv(cfg, Next(cfg, s, step))
  {
    match step
    case Wake => PollKeepsInv(cfg, s, s.server.tokens - multiset{DatabaseToken}, Draining);
    case ReadCounter => ReadKeepsInv(cfg, s, 0, Draining);
    case ReadEmpty => ReadKeepsInv(cfg, s, s.counter, Popping);
    case PopCompletion => PopKeepsInv(cfg, s);
    case Rearm => PollKeepsInv(cfg, s, s.server.tokens + multiset{DatabaseToken}, Waiting);
  }

  lemma ReadKeepsInv(cfg: Config, s: SystemState, counter: nat, phase: Phase)
    requires SystemInv(cfg, s) && s.phase != Waiting && phase != Waiting
    ensures SystemInv(cfg, s.(counter := counter, phase := phase))
  {
    var r := s.(counter := counter, phase := phase);
    assert InPipeline(r) == InPipeline(s);
  }

  lemma DatabaseTokenKeepsInv(cfg: Config, s: ServerState, tokens: multiset<Token>)
    requires Inv(cfg, s) && forall t: Token :: t != DatabaseToken ==> tokens[t] == s.tokens[t]
    ensures Inv(cfg, s.(tokens := tokens))
  {
    TokenKeepsInv(cfg, s, tokens);
  }

  lemma StepKeepsInv(cfg: Config, s: SystemState, step: SystemStep)
    requires SystemInv(cfg, s) && Enabled(cfg, s, step) && ValidOrder(cfg.order)
    ensures SystemInv(cfg, Next(cfg, s, step))
  {
    if IsWorkers(step) {
      WorkerStepKeepsInv(cfg, s, step);
    } else if step.Accept? || step.Receive? || step.Sent? {
      ServerStepKeepsInv(cfg, s, step);
    } else {
      DatabaseStepKeepsInv(cfg, s, step);
    }
  }

  lemma StepKeepsWorkers(cfg: Config, s: SystemState, step: SystemStep)
    requires Enabled(cfg, s, step)
    ensures |Next(cfg, s, step).workers| == |s.workers|
  {
  }

  // ---------- Runs ----------

  ghost predicate Executes(cfg: Config, s: SystemState, steps: seq<SystemStep>)
    decreases |steps|, 0
  {
    steps == [] || (Executes(cfg, s, steps[..|steps| - 1]) &&
                    Enabled(cfg, After(cfg, s, steps[..|steps| - 1]), steps[|steps| - 1]))
  }

  // The state after a run.
  ghost function After(cfg: Config, s: SystemState, steps: seq<SystemStep>): SystemState
    requires Executes(cfg, s, steps)
    decreases |steps|, 1
  {
    if steps == [] then s else Next(cfg, After(cfg, s, steps[..|steps| - 1]), steps[|steps| - 1])
  }

  lemma {:induction false} RunKeepsInv(cfg: Config, s: SystemState, steps: seq<SystemStep>)
    requires SystemInv(cfg, s) && Executes(cfg, s, steps) && ValidOrder(cfg.order)
    ensures SystemInv(cfg, After(cfg, s, steps)) && |After(cfg, s, steps).workers| == |s.workers|
  {
    if steps == [] {
    } else {
      RunKeepsInv(cfg, s, steps[..|steps| - 1]);
      StepKeepsInv(cfg, After(cfg, s, steps[..|steps| - 1]), steps[|steps| - 1]);
      StepKeepsWorkers(cfg, After(cfg, s, steps[..|steps| - 1]), steps[|steps| - 1]);
    }
  }

  // A state that the server and its workers can get into from given tables.
  ghost predicate ReachableFrom(cfg: Config, workers: nat, tables: Database, s: SystemState) {
    exists steps :: Executes(cfg, Start(workers, tables), steps) && s == After(cfg, Start(workers, tables), steps)
  }

  ghost predicate Reachable(cfg: Config, s: SystemState) {
    exists workers, tables :: ReachableFrom(cfg, workers, tables, s)
  }

  /** Every interleaving of the event loop with any number of workers keeps the invariant. */
  lemma ReachableInv(cfg: Config, s: SystemState)
    requires Reachable(cfg, s) && ValidOrder(cfg.order)
    ensures SystemInv(cfg, s)
  {
    var workers, tables :| ReachableFrom(cfg, workers, tables, s);
    var steps :| Executes(cfg, Start(workers, tables), steps) && s == After(cfg, Start(workers, tables), steps);
    StartInv(cfg, workers, tables);
    RunKeepsInv(cfg, Start(workers, tables), steps);
  }
}

/** The server and the database dispatcher as the objects the program holds: they change their
    sessions, queues and counters in place.  Every method is tied to the handler on values of the
    same name in `Server`. */
module GameServers {
  import opened Decimal
  import opened World
  import Views
  import opened Protocol
  import F = Framing
  import S = Server
  import opened Server
  import opened ServerInvariant
  import opened ServerHandlers
  import opened ServerOutbound
  import opened SectorWorlds
  import opened BlockingQueues
  import opened System
  import opened Runs
  import opened Storage

  // What executing a job gives: success or failure, and a line.
  datatype Result = Result(ok: bool, line: string)

  function CompletionOf(job: DbJob, result: Result): DbCompletion {
    DbCompletion(job.ticket, result.ok, result.line)
  }

  function CompletionsOf(jobs: seq<DbJob>, execute: DbJob -> Result): seq<DbCompletion> {
    seq(|jobs|, i requires 0 <= i < |jobs| => CompletionOf(jobs[i], execute(jobs[i])))
  }

  class DbDispatcher {
    const jobs: BlockingQueue<DbJob>
    var completions: seq<DbCompletion>
    var eventCount: nat  // of the eventfd

    constructor ()
      ensures Valid() && fresh(jobs) && jobs.queue == [] && !jobs.closed && completions == [] && eventCount == 0
    {
      jobs := new BlockingQueue<DbJob>();
      completions, eventCount := [], 0;
    }

    ghost predicate Valid()
      reads this, jobs
    {
      jobs.Valid()
    }

    method Submit(job: DbJob)
      requires Valid()
      modifies jobs
      ensures Valid() && jobs.closed == old(jobs.closed)
      ensures jobs.queue == if old(jobs.closed) then old(jobs.queue) else old(jobs.queue) + [job]
    {
      jobs.Push(job);
    }

    method PopCompletion() returns (completion: Option<DbCompletion>)
      modifies this`completions
      ensures completion == None <==> old(completions) == []
      ensures completion.Some? ==> old(completions) == [completion.value] + completions
      ensures completion.None? ==> completions == []
    {
      if completions == [] {
        return None;
      }
      completion := Some(completions[0]);
      completions := completions[1..];
    }

    // The write to the eventfd is dropped when its counter is saturated.
    method PushCompletion(completion: DbCompletion)
      modifies this
      ensures completions == old(completions) + [completion]
      ensures eventCount > 0
      ensures eventCount == if old(eventCount) < COUNTER_MAX then old(eventCount) + 1 else old(eventCount)
    {
      completions := completions + [completion];
      if eventCount < COUNTER_MAX {
        eventCount := eventCount + 1;
      }
    }

    // A read gives the counter and resets it; it fails while the counter is zero.
    method ReadEvent() returns (read: bool)
      modifies this`eventCount
      ensures read == (old(eventCount) > 0) && eventCount == 0
    {
      read := eventCount > 0;
      eventCount := 0;
    }

    method ReadDry()
      modifies this`eventCount
      ensures eventCount == 0
    {
      var more := ReadEvent();
      while more
        invariant eventCount == 0
        decreases more
      {
        more := ReadEvent();
      }
    }

    /** The loop of a worker on its own, until it has to wait or the queue is closed for good: every job
        that was queued is executed, in order, and each yields exactly one completion; it exits iff the
        queue is closed, and otherwise it would wait. */
    method WorkerLoop(execute: DbJob -> Result) returns (exited: bool)
      requires Valid()
      modifies this, jobs
      ensures Valid() && exited == jobs.closed == old(jobs.closed)
      ensures jobs.queue == [] && jobs.popped == jobs.accepted == old(jobs.accepted)
      ensures completions == old(completions) + CompletionsOf(old(jobs.queue), execute)
      ensures old(jobs.queue) != [] ==> eventCount > 0
    {
      ghost var taken, left: seq<DbJob> := [], jobs.queue;
      var found := jobs.Pop();
      while found.Took?
        invariant Valid() && jobs.closed == old(jobs.closed) && jobs.accepted == old(jobs.accepted)
        invariant left == if found.Took? then taken + ([found.value] + jobs.queue) else taken
        invariant !found.Took? ==> jobs.queue == [] && found.Drained? == jobs.closed
        invariant completions == old(completions) + CompletionsOf(taken, execute)
        invariant taken != [] ==> eventCount > 0
        decreases |left| - |taken|
      {
        var job := found.value;
        PushCompletion(CompletionOf(job, execute(job)));
        OneMoreCompletion(taken, job, execute);
        F.Regroup(old(completions), CompletionsOf(taken, execute), [CompletionOf(job, execute(job))]);
        F.Regroup(taken, [job], jobs.queue);
        taken := taken + [job];
        found := jobs.Pop();
      }
      exited := found.Drained?;
    }
  }

  lemma OneMoreCompletion(jobs: seq<DbJob>, job: DbJob, execute: DbJob -> Result)
    ensures CompletionsOf(jobs + [job], execute) == CompletionsOf(jobs, execute) + [CompletionOf(job, execute(job))]
  {
  }

  // ---------- Completions as the loop sees them ----------

  datatype Cqe =
    | AcceptDone(fd: Option<int>)
    | RecvDone(ref: SessionRef, chunk: string)
    | SendDone(ref: SessionRef, payload: string, n: nat)
    | DatabaseEvent

  // What the kernel may report: the end of an operation that was in flight, with a legal result.
  predicate Reportable(cfg: Config, s: ServerState, cqe: Cqe) {
    match cqe
    case AcceptDone(fd) => AcceptToken in s.tokens && (fd.Some? ==> fd.value !in s.openFds)
    case RecvDone(ref, chunk) => RecvToken(ref) in s.tokens && |chunk| <= cfg.recvBuffer
    case SendDone(ref, payload, n) => SendToken(ref, payload) in s.tokens && n <= |payload|
    case DatabaseEvent => DatabaseToken in s.tokens
  }

  function Dispatched(cfg: Config, s: ServerState, cqe: Cqe, completions: seq<DbCompletion>): ServerState
    requires Reportable(cfg, s, cqe)
  {
    match cqe
    case AcceptDone(fd) => S.OnAccept(cfg, s, fd)
    case RecvDone(ref, chunk) => S.OnRecv(cfg, s, ref, chunk)
    case SendDone(ref, payload, n) => S.OnSent(cfg, s, ref, payload, n)
    case DatabaseEvent => Polling(CompleteAll(cfg, Consume(s, DatabaseToken), completions))
  }

  // Each completion answers a job that is outstanding, and no two the same.
  ghost predicate Awaited(s: ServerState, completions: seq<DbCompletion>) {
    && (forall i :: 0 <= i < |completions| ==> completions[i].ticket in s.outstanding)
    && (forall i, j :: 0 <= i < j < |completions| ==> completions[i].ticket != completions[j].ticket)
  }

  // What handling one awaited completion keeps, whatever it is, handling all of them keeps.
  lemma {:induction false} FoldKeeps(
    inv: ServerState -> bool, f: (ServerState, DbCompletion) -> ServerState, s: ServerState, cs: seq<DbCompletion>)
    requires forall r, c: DbCompletion :: inv(r) && c.ticket in r.outstanding ==>
               inv(f(r, c)) && f(r, c).outstanding == r.outstanding - {c.ticket}
    requires inv(s) && Awaited(s, cs)
    ensures inv(Fold(f, s, cs))
    ensures forall t :: t in s.outstanding && (forall i :: 0 <= i < |cs| ==> cs[i].ticket != t) ==>
              t in Fold(f, s, cs).outstanding
  {
    if cs == [] {
    } else {
      FoldKeeps(inv, f, s, cs[..|cs| - 1]);
    }
  }

  lemma CompleteAllKeepsInv(cfg: Config, s: ServerState, cs: seq<DbCompletion>)
    requires Inv(cfg, s) && Awaited(s, cs)
    ensures Inv(cfg, CompleteAll(cfg, s, cs))
  {
    forall r, c: DbCompletion | Inv(cfg, r) && c.ticket in r.outstanding
      ensures Inv(cfg, Completing(cfg)(r, c)) && Completing(cfg)(r, c).outstanding == r.outstanding - {c.ticket}
    {
      OnCompletionKeepsInv(cfg, r, c);
    }
    FoldKeeps(r => Inv(cfg, r), Completing(cfg), s, cs);
  }

  lemma EventKeepsInv(cfg: Config, s: ServerState, cs: seq<DbCompletion>)
    requires Inv(cfg, s) && Awaited(s, cs)
    ensures Inv(cfg, Polling(CompleteAll(cfg, Consume(s, DatabaseToken), cs)))
  {
    var s0 := Consume(s, DatabaseToken);
    DatabaseTokenKeepsInv(cfg, s, s0.tokens);
    CompleteAllKeepsInv(cfg, s0, cs);
    var r := CompleteAll(cfg, s0, cs);
    DatabaseTokenKeepsInv(cfg, r, Polling(r).tokens);
  }

  lemma DispatchKeepsInv(cfg: Config, s: ServerState, cqe: Cqe, cs: seq<DbCompletion>)
    requires Inv(cfg, s) && Reportable(cfg, s, cqe) && Awaited(s, cs) && ValidOrder(cfg.order)
    ensures TerminatedOrInv(cfg, Dispatched(cfg, s, cqe, cs))
  {
    match cqe
    case AcceptDone(fd) => OnAcceptKeepsInv(cfg, s, fd);
    case RecvDone(ref, chunk) => OnRecvKeepsInv(cfg, s, ref, chunk);
    case SendDone(ref, payload, n) => OnSentKeepsInv(cfg, s, ref, payload, n);
    case DatabaseEvent => EventKeepsInv(cfg, s, cs);
  }

  /** In every reachable state the completions there are awaited, so what dispatching asks of them holds. */
  lemma CompletionsAreAwaited(cfg: Config, s: SystemState)
    requires Running(cfg, s)
    ensures Awaited(s.server, s.completions)
  {
    RunningConserves(cfg, s);
    ConservedIsAwaited(s);
  }

  lemma ConservedIsAwaited(s: SystemState)
    requires Conserved(s)
    ensures Awaited(s.server, s.completions)
  {
    var tickets := CompletionTickets(s.completions);
    assert forall t :: multiset(tickets)[t] <= InPipeline(s)[t];
    forall i | 0 <= i < |s.completions| ensures s.completions[i].ticket in s.server.outstanding {
      assert tickets[i] in multiset(tickets);
    }
    forall i, j | 0 <= i < j < |s.completions| ensures s.completions[i].ticket != s.completions[j].ticket {
      if tickets[i] == tickets[j] {
        TwiceInside(tickets, i, j);
      }
    }
  }

  lemma EnterIs(cfg: Config, s: ServerState, ref: SessionRef, r: Request)
    requires S.SessionMatches(s, ref) && ValidRequest(r) && r.command == EnterWorld
    ensures |r.args| == 4 && IsSignedNumber(r.args[2]) && IsSignedNumber(r.args[3])
    ensures var x, y := Stoi(r.args[2]), Stoi(r.args[3]);
            S.HandleRequest(cfg, s, ref, r) ==
            if x.None? || y.None? then s.(terminated := true)
            else S.HandleEnter(cfg, s, ref, Place(r.args[0], r.args[1], x.value, y.value))
  {
    CoordinatesOf(r);
  }

  class IoUringGameServer {
    const config: Config
    const world: SectorWorld
    const database: DbDispatcher

    var sessions: map<int, Session>
    var nextRequestId: nat
    var nextGeneration: nat
    var tokens: multiset<Token>  // submitted to the ring
    var terminated: bool         // an exception left the loop
    ghost var openFds: set<int>
    ghost var outstanding: set<Ticket>
    ghost var hist: map<SessionRef, History>

    constructor (config: Config)
      ensures Valid() && fresh(world) && fresh(database) && fresh(database.jobs)
      ensures State() == Initial() && database.completions == [] && this.config == config
    {
      this.config := config;
      world := new SectorWorld(SECTOR_SIZE, VIEW_RADIUS, config.order);
      database := new DbDispatcher();
      sessions, nextRequestId, nextGeneration := map[], 1, 1;
      tokens, terminated := multiset{AcceptToken, DatabaseToken}, false;
      openFds, outstanding, hist := {}, {}, map[];
    }

    ghost function State(): ServerState
      reads this, world, database, database.jobs
    {
      ServerState(sessions, nextRequestId, nextGeneration, world.State(), database.jobs.queue, tokens,
                  openFds, terminated, outstanding, hist)
    }

    ghost predicate Valid()
      reads this, world, database, database.jobs
    {
      world.Valid() && world.order == config.order && database.Valid() && !database.jobs.closed
    }

    predicate SessionMatches(ref: SessionRef)
      reads this
    {
      ref.fd in sessions && sessions[ref.fd].generation == ref.generation
    }

    ghost function HistoryOf(ref: SessionRef): History
      reads this
    {
      if ref in hist then hist[ref] else History([], [], [], "", [], false, Open)
    }

    // ---------- Sending ----------

    method PostSend(fd: int)
      modifies this`sessions, this`tokens
      ensures State() == S.PostSend(old(State()), fd)
    {
      if fd !in sessions {
        return;
      }
      var session := sessions[fd];
      if session.writeInFlight || session.outbox == [] {
        return;
      }
      var payload := session.outbox[0];
      sessions := sessions[fd := session.(writeInFlight := true)];
      tokens := tokens + multiset{SendToken(SessionRef(fd := session.fd, generation := session.generation), payload)};
    }

    method QueueResponse(ref: SessionRef, reply: Reply)
      modifies this`sessions, this`tokens, this`hist
      ensures State() == S.QueueResponse(config, old(State()), ref, reply)
    {
      if !SessionMatches(ref) {
        return;
      }
      var line := config.text(reply);
      if line == "" || line[|line| - 1] != '\n' {
        line := line + "\n";
      }
      var session := sessions[ref.fd];
      sessions := sessions[ref.fd := session.(outbox := session.outbox + [line])];
      hist := hist[ref := HistoryOf(ref).(queued := HistoryOf(ref).queued + [reply])];
      PostSend(ref.fd);
    }

    method DeliverWorldEvents(events: seq<WorldEvent>)
      modifies this`sessions, this`tokens, this`hist
      ensures State() == S.Deliver(config, old(State()), events)
    {
      for i := 0 to |events|
        invariant State() == S.Deliver(config, old(State()), events[..i])
      {
        assert events[..i + 1][..i] == events[..i];
        QueueResponse(events[i].receiver, InWorld(events[i].line));
      }
      assert events[..|events|] == events;
    }

    // ---------- Database jobs ----------

    method Submit(job: DbJob)
      requires Valid()
      modifies this`outstanding, database.jobs
      ensures Valid()
      ensures State() == S.Submit(old(State()), job)
    {
      database.Submit(job);
      outstanding := outstanding + {job.ticket};
    }

    method SubmitPositionSave(ref: SessionRef, account: string, character: string, x: int, y: int)
      requires Valid()
      modifies this`nextRequestId, this`outstanding, this`hist, database.jobs
      ensures Valid()
      ensures State() == S.SubmitPositionSave(old(State()), ref, Place(account, character, x, y))
    {
      var job := DbJob(Ticket(ref, nextRequestId, false), SavePosition, "SAVE_POSITION",
                       [account, character, ToString(x), ToString(y)]);
      nextRequestId := nextRequestId + 1;
      hist := hist[ref := HistoryOf(ref).(saves := HistoryOf(ref).saves + [job])];
      Submit(job);
    }

    // ---------- Client lines ----------

    // Leaving the world, telling whoever saw it, and saving the last position.
    method Depart(ref: SessionRef)
      requires Valid()
      modifies this, world, database.jobs
      ensures Valid()
      ensures State() == S.Depart(config, old(State()), ref)
    {
      var events, snapshot := world.Leave(ref);
      DeliverWorldEvents(events);
      if snapshot.account != "" {
        SubmitPositionSave(ref, snapshot.account, snapshot.character, snapshot.x, snapshot.y);
      }
    }

    method HandleClientLine(ref: SessionRef, line: string)
      requires Valid() && SessionMatches(ref)
      modifies this, world, database.jobs
      ensures Valid()
      ensures State() == S.HandleLine(config, old(State()), ref, line)
    {
      var parsed := ParseLine(line);
      match parsed {
        case Error(e) => QueueResponse(ref, Refused(e));
        case Ok(request) =>
          ParseAccepts(line, request);
          CoordinatesOf(request);
          HandleRequest(ref, request);
      }
      hist := hist[ref := HistoryOf(ref).(lines := HistoryOf(ref).lines + [line])];
    }

    method HandleRequest(ref: SessionRef, request: Request)
      requires Valid() && SessionMatches(ref) && ValidRequest(request)
      modifies this, world, database.jobs
      ensures Valid()
      ensures State() == S.HandleRequest(config, old(State()), ref, request)
    {
      CoordinatesOf(request);
      match request.command {
        case Quit => HandleQuit(ref);
        case EnterWorld => HandleEnter(ref, request);
        case MoveTo => HandleMove(ref, request);
        case AttackTarget => HandleAttack(ref, request);
        case _ => HandleDatabaseRequest(ref, request);
      }
    }

    method HandleQuit(ref: SessionRef)
      requires Valid() && SessionMatches(ref)
      modifies this, world, database.jobs
      ensures Valid()
      ensures State() == S.HandleQuit(config, old(State()), ref)
    {
      DepartKeepsSessions(config, State(), ref);
      Depart(ref);
      QueueKeepsSessions(config, State(), ref, Bye);
      QueueResponse(ref, Bye);
      sessions := sessions[ref.fd := sessions[ref.fd].(closeAfterFlush := true)];
    }

    method HandleEnter(ref: SessionRef, request: Request)
      requires Valid() && SessionMatches(ref) && ValidRequest(request) && request.command == EnterWorld
      modifies this, world, database.jobs
      ensures Valid()
      ensures State() == S.HandleRequest(config, old(State()), ref, request)
    {
      CoordinatesOf(request);
      EnterIs(config, State(), ref, request);
      var account, character := request.args[0], request.args[1];
      var x, y := Stoi(request.args[2]), Stoi(request.args[3]);
      if x.None? || y.None? {
        terminated := true;
        return;
      }
      EnterAndSave(ref, account, character, x.value, y.value);
    }

    method EnterAndSave(ref: SessionRef, account: string, character: string, x: int, y: int)
      requires Valid() && SessionMatches(ref)
      modifies this, world, database.jobs
      ensures Valid()
      ensures State() == S.HandleEnter(config, old(State()), ref, Place(account, character, x, y))
    {
      Announce(ref, DoEnter(ref, account, character, x, y));
      SubmitPositionSave(ref, account, character, x, y);
    }

    // A world operation, and its events to whom they concern.
    method Announce(ref: SessionRef, op: Op)
      requires Valid() && op.ref == ref && !op.DoLeave?
      modifies this`sessions, this`tokens, this`hist, world
      ensures Valid()
      ensures State() == S.InTheWorld(config, old(State()), op)
    {
      Remember(ref, op);
      var events;
      match op {
        case DoEnter(_, account, character, x, y) => events := world.Enter(ref, account, character, x, y);
        case DoMove(_, x, y) => events := world.Move(ref, x, y);
        case DoAttack(_, skill, target) => events := world.Attack(ref, skill, target);
      }
      DeliverWorldEvents(events);
    }

    method HandleMove(ref: SessionRef, request: Request)
      requires Valid() && SessionMatches(ref) && ValidRequest(request) && request.command == MoveTo
      modifies this, world
      ensures Valid()
      ensures State() == S.HandleRequest(config, old(State()), ref, request)
    {
      CoordinatesOf(request);
      var x, y := Stoi(request.args[0]), Stoi(request.args[1]);
      if x.None? || y.None? {
        terminated := true;
        return;
      }
      Announce(ref, DoMove(ref, x.value, y.value));
    }

    method HandleAttack(ref: SessionRef, request: Request)
      requires Valid() && SessionMatches(ref) && ValidRequest(request) && request.command == AttackTarget
      modifies this, world
      ensures Valid()
      ensures State() == S.HandleRequest(config, old(State()), ref, request)
    {
      Announce(ref, DoAttack(ref, request.args[0], request.args[1]));
    }

    // History only: whether the client still sees everybody around it after this.
    ghost method Remember(ref: SessionRef, op: Op)
      requires op.ref == ref
      modifies this`hist
      ensures State() == Settle(old(State()), ref,
                        Views.StaysSettled(old(world.State()), old(HistoryOf(ref)).settled, ref, op))
    {
      hist := hist[ref := HistoryOf(ref).(
        settled := Views.StaysSettled(world.State(), HistoryOf(ref).settled, ref, op))];
    }

    method HandleDatabaseRequest(ref: SessionRef, request: Request)
      requires Valid() && SessionMatches(ref)
      modifies this, database.jobs
      ensures Valid()
      ensures State() == S.HandleDatabase(config, old(State()), ref, request)
    {
      var operation := OperationFor(request.command);
      if operation == None {
        QueueResponse(ref, Unsupported);
        return;
      }
      RequestJob(ref, operation.value, request);
    }

    method RequestJob(ref: SessionRef, operation: DbOperation, request: Request)
      requires Valid() && SessionMatches(ref)
      modifies this, database.jobs
      ensures Valid()
      ensures State() == S.RequestJob(config, old(State()), ref, operation, request)
    {
      var id := nextRequestId;
      nextRequestId := nextRequestId + 1;
      sessions := sessions[ref.fd := sessions[ref.fd].(pendingDb := sessions[ref.fd].pendingDb + 1)];
      assert State() == Expect(old(State()), ref);
      QueueResponse(ref, Pending(id, request.name));
      Submit(DbJob(Ticket(ref, id, true), operation, request.name, request.args));
    }

    // ---------- Closing ----------

    method CloseSession(fd: int, ghost ending: Ending)
      requires Valid()
      modifies this, world, database.jobs
      ensures Valid()
      ensures State() == S.CloseSession(config, old(State()), fd, ending)
    {
      if fd !in sessions {
        return;
      }
      var ref := SessionRef(sessions[fd].fd, sessions[fd].generation);
      Depart(ref);
      openFds := openFds - {ref.fd};
      sessions := sessions - {fd};
      hist := hist[ref := HistoryOf(ref).(ending := ending)];
    }

    method MaybeCloseAfterFlush(fd: int)
      requires Valid()
      modifies this, world, database.jobs
      ensures Valid()
      ensures State() == S.MaybeCloseAfterFlush(config, old(State()), fd)
    {
      if fd !in sessions {
        return;
      }
      var session := sessions[fd];
      if session.closeAfterFlush && !session.writeInFlight && session.outbox == [] {
        CloseSession(fd, Flushed);
      }
    }

    // ---------- Completion handlers ----------

    /** The dispatch of one completion in the event loop.  From a state that satisfies the invariant of
        the value model, whatever the kernel reports leads to another one, unless an exception leaves
        the loop; so the object, too, keeps everything that the invariant says. */
    method Dispatch(cqe: Cqe)
      requires Valid() && !terminated && Reportable(config, State(), cqe)
      modifies this, world, database, database.jobs
      ensures Valid()
      ensures State() == Dispatched(config, old(State()), cqe, old(database.completions))
      ensures old(Inv(config, State()) && Awaited(State(), database.completions)) && ValidOrder(config.order) ==>
                TerminatedOrInv(config, State())
    {
      ghost var s0, cs := State(), database.completions;
      match cqe {
        case AcceptDone(fd) => OnAccept(fd);
        case RecvDone(ref, chunk) => OnRecv(ref, chunk);
        case SendDone(ref, payload, n) => OnSent(ref, payload, n);
        case DatabaseEvent => OnDatabaseEvent();
      }
      if Inv(config, s0) && Awaited(s0, cs) && ValidOrder(config.order) {
        DispatchKeepsInv(config, s0, cqe, cs);
      }
    }

    method PostRecv(ref: SessionRef)
      modifies this`tokens
      ensures State() == S.PostRecv(old(State()), ref)
    {
      tokens := tokens + multiset{RecvToken(ref)};
    }

    method OnAccept(result: Option<int>)
      requires Valid()
      modifies this
      ensures Valid()
      ensures State() == S.OnAccept(config, old(State()), result)
    {
      tokens := tokens - multiset{AcceptToken};
      if result.Some? {
        var ref := Connect(result.value);
        QueueResponse(ref, Hello);
        PostRecv(ref);
      }
      tokens := tokens + multiset{AcceptToken};
    }

    // A session for a new connection; an existing entry would stay.
    method Connect(fd: int) returns (ref: SessionRef)
      modifies this`sessions, this`nextGeneration, this`openFds, this`hist
      ensures ref == SessionRef(fd, old(nextGeneration))
      ensures State() == S.Connect(old(State()), fd)
    {
      ref := SessionRef(fd, nextGeneration);
      var session := Session(fd, nextGeneration, "", [], false, false, 0);
      nextGeneration := nextGeneration + 1;
      if fd !in sessions {
        sessions := sessions[fd := session];
      }
      openFds := openFds + {fd};
      hist := hist[ref := HistoryOf(ref)];
    }

    method OnRecv(ref: SessionRef, chunk: string)
      requires Valid()
      modifies this, world, database.jobs
      ensures Valid()
      ensures State() == S.OnRecv(config, old(State()), ref, chunk)
    {
      tokens := tokens - multiset{RecvToken(ref)};
      if !SessionMatches(ref) {
        return;
      }
      if chunk == "" {
        CloseSession(ref.fd, Dropped);
        return;
      }
      Append(ref, chunk);
      ReceiveLines(ref);
    }

    method ReceiveLines(ref: SessionRef)
      requires Valid() && SessionMatches(ref)
      modifies this, world, database.jobs
      ensures Valid()
      ensures S.SessionMatches(S.ProcessLines(config, old(State()), ref), ref)
      ensures var r := S.ProcessLines(config, old(State()), ref);
              State() == if r.terminated then r else S.FinishRecv(config, r, ref)
    {
      HandleBufferedLines(ref);
      if terminated {
        return;
      }
      FinishRecv(ref);
    }

    method Append(ref: SessionRef, chunk: string)
      requires SessionMatches(ref)
      modifies this`sessions, this`hist
      ensures State() == S.Append(old(State()), ref, chunk) && SessionMatches(ref)
    {
      sessions := sessions[ref.fd := sessions[ref.fd].(input := sessions[ref.fd].input + chunk)];
      hist := hist[ref := HistoryOf(ref).(chunks := HistoryOf(ref).chunks + [chunk])];
    }

    // What follows the loop: refusing an overlong rest, then reading on or closing.
    method FinishRecv(ref: SessionRef)
      requires Valid() && SessionMatches(ref)
      modifies this, world, database.jobs
      ensures Valid()
      ensures State() == S.FinishRecv(config, old(State()), ref)
    {
      if |sessions[ref.fd].input| > config.maxLine {
        QueueKeepsSessions(config, State(), ref, LineTooLong);
        QueueResponse(ref, LineTooLong);
        sessions := sessions[ref.fd := sessions[ref.fd].(closeAfterFlush := true)];
      }
      if !sessions[ref.fd].closeAfterFlush {
        PostRecv(ref);
      } else {
        MaybeCloseAfterFlush(ref.fd);
      }
    }

    // The loop of the receive handler.
    method HandleBufferedLines(ref: SessionRef)
      requires Valid() && SessionMatches(ref)
      modifies this, world, database.jobs
      ensures Valid() && SessionMatches(ref)
      ensures State() == S.ProcessLines(config, old(State()), ref)
    {
      ghost var s0 := State();
      ProcessLinesKeepsSession(config, s0, ref);
      var newline := F.FindNewline(sessions[ref.fd].input);
      while newline.Some?
        invariant Valid() && SessionMatches(ref)
        invariant newline == F.FindNewline(sessions[ref.fd].input)
        invariant S.ProcessLines(config, State(), ref) == S.ProcessLines(config, s0, ref)
        decreases |sessions[ref.fd].input|
      {
        TakeLine(ref, newline.value);
        if terminated || !SessionMatches(ref) || sessions[ref.fd].closeAfterFlush {
          return;
        }
        newline := F.FindNewline(sessions[ref.fd].input);
      }
    }

    // Takes the first line, of length `n`, out of the buffer and handles it.
    method TakeLine(ref: SessionRef, n: nat)
      requires Valid() && SessionMatches(ref) && n < |sessions[ref.fd].input|
      modifies this, world, database.jobs
      ensures Valid() && SessionMatches(ref)
      ensures State() == S.NextLine(config, old(State()), ref, n)
      ensures sessions[ref.fd].input == old(sessions[ref.fd].input[n + 1..])
    {
      var input := sessions[ref.fd].input;
      NextLineShortens(config, State(), ref, n);
      sessions := sessions[ref.fd := sessions[ref.fd].(input := input[n + 1..])];
      HandleClientLine(ref, input[..n]);
    }

    method OnSent(ref: SessionRef, payload: string, n: nat)
      requires Valid() && n <= |payload|
      modifies this, world, database.jobs
      ensures Valid()
      ensures State() == S.OnSent(config, old(State()), ref, payload, n)
    {
      tokens := tokens - multiset{SendToken(ref, payload)};
      if !SessionMatches(ref) {
        return;
      }
      sessions := sessions[ref.fd := sessions[ref.fd].(writeInFlight := false)];
      var session := sessions[ref.fd];
      if n == 0 || session.outbox == [] {
        CloseSession(ref.fd, Dropped);
        return;
      }
      Acknowledge(ref, payload, n);
      PostSend(ref.fd);
      MaybeCloseAfterFlush(ref.fd);
    }

    // What the kernel took leaves the outbox.
    method Acknowledge(ref: SessionRef, payload: string, n: nat)
      requires SessionMatches(ref) && sessions[ref.fd].outbox != [] && n <= |payload|
      modifies this`sessions, this`hist
      ensures State() == S.Acknowledge(old(State()), ref, payload, n)
    {
      var session := sessions[ref.fd];
      var front := session.outbox[0];
      if n >= |front| {
        sessions := sessions[ref.fd := session.(outbox := session.outbox[1..])];
      } else {
        sessions := sessions[ref.fd := session.(outbox := [front[n..]] + session.outbox[1..])];
      }
      hist := hist[ref := HistoryOf(ref).(sent := HistoryOf(ref).sent + payload[..n])];
    }

    method OnCompletion(completion: DbCompletion)
      requires Valid()
      modifies this, world, database.jobs
      ensures Valid()
      ensures State() == S.OnCompletion(config, old(State()), completion)
    {
      outstanding := outstanding - {completion.ticket};
      if !completion.ticket.notify {
        return;
      }
      var ref := completion.ticket.ref;
      if !SessionMatches(ref) {
        return;
      }
      if sessions[ref.fd].pendingDb > 0 {
        sessions := sessions[ref.fd := sessions[ref.fd].(pendingDb := sessions[ref.fd].pendingDb - 1)];
      }
      QueueResponse(ref, Answer(completion.ticket.id, completion.ok, completion.line));
      MaybeCloseAfterFlush(ref.fd);
    }

    /** The handler of the eventfd: it reads the counter dry, takes every completion that is there, in
        order, and polls again. */
    method OnDatabaseEvent()
      requires Valid()
      modifies this, world, database, database.jobs
      ensures Valid() && database.completions == [] && database.eventCount == 0
      ensures State() == Polling(CompleteAll(config, Consume(old(State()), DatabaseToken), old(database.completions)))
    {
      tokens := tokens - multiset{DatabaseToken};
      assert State() == Consume(old(State()), DatabaseToken);
      database.ReadDry();
      TakeCompletions();
      PostEventfdPoll();
    }

    method PostEventfdPoll()
      modifies this`tokens
      ensures State() == Polling(old(State()))
    {
      tokens := tokens + multiset{DatabaseToken};
    }

    // One more completion, if there is one.
    method TakeCompletion(ghost s0: ServerState, ghost taken: seq<DbCompletion>) returns (more: bool)
      requires Valid() && State() == CompleteAll(config, s0, taken)
      modifies this, world, database`completions, database.jobs
      ensures Valid() && more == (old(database.completions) != [])
      ensures more ==> database.completions == old(database.completions)[1..]
      ensures more ==> State() == CompleteAll(config, s0, taken + [old(database.completions)[0]])
      ensures !more ==> database.completions == [] && State() == CompleteAll(config, s0, taken)
    {
      var completion := database.PopCompletion();
      more := completion.Some?;
      if more {
        FoldOneMore(Completing(config), s0, taken, completion.value);
        OnCompletion(completion.value);
      }
    }

    method TakeCompletions()
      requires Valid()
      modifies this, world, database`completions, database.jobs
      ensures Valid() && database.completions == []
      ensures State() == CompleteAll(config, old(State()), old(database.completions))
    {
      ghost var s0, left := State(), database.completions;
      ghost var taken: seq<DbCompletion> := [];
      var more := true;
      while more
        invariant Valid() && State() == CompleteAll(config, s0, taken)
        invariant left == taken + database.completions
        invariant !more ==> database.completions == []
        decreases |database.completions|, more
      {
        ghost var rest := database.completions;
        more := TakeCompletion(s0, taken);
        if more {
          FrontMoves(taken, rest);
          taken := taken + [rest[0]];
        }
      }
      assert left == taken + [] == taken;
    }
  }
}

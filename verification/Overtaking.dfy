/** A newer position save can be overtaken by an older one whenever there are two workers: a run that
    two ENTERs of one client can cause, and the exact condition. */
module Overtaking {
  import opened Decimal
  import opened Geometry
  import W = World
  import opened World
  import opened Protocol
  import F = Framing
  import opened Server
  import opened ServerRecv
  import opened ServerReplies
  import T = Tables
  import opened Tables
  import opened System
  import opened Runs
  import opened Storage

  // ---------- One line, one job ----------

  // A place that an ENTER can name.
  predicate Enterable(p: Place) {
    IsWord(p.account) && IsWord(p.character) && FitsInt(p.x) && FitsInt(p.y)
  }

  function EnterLine(p: Place): string {
    Print(EnterRequest(p))
  }

  // One more save is queued, and no session is other than it was but for its sends.
  ghost predicate Saves(s: ServerState, r: ServerState, ref: SessionRef, p: Place) {
    && r.jobs == s.jobs + [SaveJob(ref, s.nextRequestId, p)] && r.nextRequestId == s.nextRequestId + 1
    && r.terminated == s.terminated && SameSessions(s, r)
  }

  lemma EnterSaves(cfg: Config, s: ServerState, ref: SessionRef, p: Place)
    ensures Saves(s, HandleEnter(cfg, s, ref, p), ref, p)
  {
    WorldSubmitsNothing(cfg, s, DoEnter(ref, p.account, p.character, p.x, p.y));
  }

  lemma EnterLineSaves(cfg: Config, s: ServerState, ref: SessionRef, p: Place)
    requires SessionMatches(s, ref) && Enterable(p)
    ensures Saves(s, HandleLine(cfg, s, ref, EnterLine(p)), ref, p)
  {
    EnterIsValid(p);
    EnterRequestSaves(cfg, s, ref, p);
  }

  lemma EnterRequestSaves(cfg: Config, s: ServerState, ref: SessionRef, p: Place)
    requires SessionMatches(s, ref) && Enterable(p) && ValidRequest(EnterRequest(p))
    ensures Saves(s, HandleRequest(cfg, s, ref, EnterRequest(p)), ref, p)
  {
    EnterRequestIsOp(ref, p);
    EnterSaves(cfg, s, ref, p);
  }

  lemma EnterRequestIsOp(ref: SessionRef, p: Place)
    requires Enterable(p) && ValidRequest(EnterRequest(p))
    ensures WorldRequestOf(ref, EnterRequest(p)) == InRange(DoEnter(ref, p.account, p.character, p.x, p.y))
  {
    RoundTrip(p.x);
    RoundTrip(p.y);
  }

  lemma EnterIsOneLine(p: Place)
    requires Enterable(p)
    ensures '\n' !in EnterLine(p)
    ensures F.FindNewline(EnterLine(p) + "\n") == Some(|EnterLine(p)|)
  {
    NumberIsWord(p.x);
    NumberIsWord(p.y);
    NameIsWord(EnterWorld);
    JoinIsOneLine(["ENTER"] + EnterRequest(p).args);
    F.FirstNewlineUnique(EnterLine(p) + "\n", |EnterLine(p)|);
  }

  // Ready for the next line: nothing buffered, and reading.
  predicate Idling(s: ServerState, ref: SessionRef) {
    SessionMatches(s, ref) && s.sessions[ref.fd].input == "" && !s.sessions[ref.fd].closeAfterFlush && !s.terminated
  }

  lemma OneLineBuffered(cfg: Config, s: ServerState, ref: SessionRef, p: Place)
    requires SessionMatches(s, ref) && !s.sessions[ref.fd].closeAfterFlush && !s.terminated && Enterable(p)
    requires s.sessions[ref.fd].input == EnterLine(p) + "\n"
    ensures var r := ProcessLines(cfg, s, ref);
            && r.jobs == s.jobs + [SaveJob(ref, s.nextRequestId, p)] && r.nextRequestId == s.nextRequestId + 1
            && Idling(r, ref)
  {
    var n := |EnterLine(p)|;
    EnterIsOneLine(p);
    var input := s.sessions[ref.fd].input;
    assert input[..n] == EnterLine(p) && input[n + 1..] == "";
    EnterLineSaves(cfg, CutLine(s, ref, n), ref, p);
    var r := NextLine(cfg, s, ref, n);
    assert SameButSending(CutLine(s, ref, n).sessions[ref.fd], r.sessions[ref.fd]);
  }

  lemma EnterChunkSaves(cfg: Config, s: ServerState, ref: SessionRef, p: Place)
    requires Idling(s, ref) && Enterable(p)
    ensures var r := OnRecv(cfg, s, ref, EnterLine(p) + "\n");
            && r.jobs == s.jobs + [SaveJob(ref, s.nextRequestId, p)] && r.nextRequestId == s.nextRequestId + 1
            && Idling(r, ref)
  {
    var s1 := Append(Consume(s, RecvToken(ref)), ref, EnterLine(p) + "\n");
    assert "" + (EnterLine(p) + "\n") == EnterLine(p) + "\n";
    OneLineBuffered(cfg, s1, ref, p);
  }

  // ---------- From the start to two queued saves ----------

  // A client has connected and sent the ENTERs of some places, and no worker has moved.
  ghost predicate Entered(s: SystemState, workers: nat, database: Database, jobs: seq<DbJob>, ref: SessionRef) {
    && s.server.jobs == jobs && s.submitted == jobs && s.server.nextRequestId == 1 + |jobs|
    && s.executed == [] && s.tables == database && s.phase == Waiting
    && s.workers == Start(workers, database).workers && Idling(s.server, ref)
  }

  lemma ConnectRun(cfg: Config, workers: nat, database: Database, fd: int)
    requires ValidOrder(cfg.order)
    ensures var start, steps := Start(workers, database), [] + [Accept(Some(fd))];
            && Executes(cfg, start, steps)
            && Entered(After(cfg, start, steps), workers, database, [], SessionRef(fd, 1))
  {
    RunMore(cfg, Start(workers, database), [], Accept(Some(fd)));
    FirstAccept(cfg, fd);
  }

  lemma EnterRun(
    cfg: Config, workers: nat, database: Database, steps: seq<SystemStep>, jobs: seq<DbJob>, ref: SessionRef, p: Place)
    requires ValidOrder(cfg.order) && Executes(cfg, Start(workers, database), steps)
    requires Entered(After(cfg, Start(workers, database), steps), workers, database, jobs, ref)
    requires Enterable(p) && |EnterLine(p)| < cfg.recvBuffer
    ensures var start, more := Start(workers, database), steps + [Receive(ref, EnterLine(p) + "\n")];
            && Executes(cfg, start, more)
            && Entered(After(cfg, start, more), workers, database, jobs + [SaveJob(ref, 1 + |jobs|, p)], ref)
  {
    var start := Start(workers, database);
    var s := After(cfg, start, steps);
    assert ReachableFrom(cfg, workers, database, s);
    CanReceive(cfg, s, ref, EnterLine(p) + "\n");
    RunMore(cfg, start, steps, Receive(ref, EnterLine(p) + "\n"));
    EnterChunkSaves(cfg, s.server, ref, p);
    ServeSubmits(s, OnRecv(cfg, s.server, ref, EnterLine(p) + "\n"), SaveJob(ref, 1 + |jobs|, p));
  }

  lemma CanReceive(cfg: Config, s: SystemState, ref: SessionRef, chunk: string)
    requires Running(cfg, s) && s.phase == Waiting && Idling(s.server, ref) && |chunk| <= cfg.recvBuffer
    ensures Enabled(cfg, s, Receive(ref, chunk))
  {
    EverySessionIsServed(cfg, s, ref.fd);
    assert SessionRef(ref.fd, s.server.sessions[ref.fd].generation) == ref;
  }

  lemma ServeSubmits(s: SystemState, server: ServerState, job: DbJob)
    requires server.jobs == s.server.jobs + [job]
    ensures Serve(s, server).submitted == s.submitted + [job]
  {
    assert server.jobs[|s.server.jobs|..] == [job];
  }

  // ---------- Two workers, the newer job first ----------

  ghost predicate TwoIdle(s: SystemState, i: nat, j: nat) {
    i < |s.workers| && j < |s.workers| && i != j && s.workers[i] == Idle && s.workers[j] == Idle && !s.server.terminated
  }

  function Taken(s: SystemState, i: nat, j: nat): SystemState
    requires |s.server.jobs| >= 2 && i < |s.workers| && j < |s.workers|
  {
    s.(server := s.server.(jobs := s.server.jobs[2..]), started := s.started + s.server.jobs[..2],
       workers := s.workers[i := Executing(s.server.jobs[0])][j := Executing(s.server.jobs[1])])
  }

  lemma TakenInTurn(cfg: Config, s: SystemState, i: nat, j: nat)
    requires TwoIdle(s, i, j) && |s.server.jobs| >= 2
    ensures Enabled(cfg, s, Take(i)) && Enabled(cfg, Next(cfg, s, Take(i)), Take(j))
    ensures Next(cfg, Next(cfg, s, Take(i)), Take(j)) == Taken(s, i, j)
  {
    FirstTwo(s.started, s.server.jobs);
  }

  lemma FirstTwo<T>(a: seq<T>, b: seq<T>)
    requires |b| >= 2
    ensures b[1..][0] == b[1] && b[1..][1..] == b[2..]
    ensures a + [b[0]] + [b[1]] == a + b[..2]
  {
  }

  lemma TakeBoth(cfg: Config, start: SystemState, steps: seq<SystemStep>, i: nat, j: nat)
    requires Executes(cfg, start, steps)
    requires TwoIdle(After(cfg, start, steps), i, j) && |After(cfg, start, steps).server.jobs| >= 2
    ensures var more := steps + [Take(i)] + [Take(j)];
            Executes(cfg, start, more) && After(cfg, start, more) == Taken(After(cfg, start, steps), i, j)
  {
    TakenInTurn(cfg, After(cfg, start, steps), i, j);
    RunMore(cfg, start, steps, Take(i));
    RunMore(cfg, start, steps + [Take(i)], Take(j));
  }

  function ExecutedBoth(s: SystemState, i: nat, j: nat): SystemState
    requires i < |s.workers| && j < |s.workers| && s.workers[i].Executing? && s.workers[j].Executing?
  {
    var a, b := s.workers[i].job, s.workers[j].job;
    s.(tables := T.Execute(T.Execute(s.tables, Execution(b, true, "")), Execution(a, true, "")),
       executed := s.executed + [Execution(b, true, "")] + [Execution(a, true, "")],
       workers := s.workers[j := Executed(DbCompletion(b.ticket, true, ""))]
                  [i := Executed(DbCompletion(a.ticket, true, ""))])
  }

  lemma ExecuteBoth(cfg: Config, start: SystemState, steps: seq<SystemStep>, i: nat, j: nat)
    requires Executes(cfg, start, steps)
    requires var s := After(cfg, start, steps);
             && !s.server.terminated && i < |s.workers| && j < |s.workers| && i != j
             && s.workers[i].Executing? && s.workers[j].Executing?
             && Commit(s.tables, s.workers[j].job).Some?
             && Commit(Commit(s.tables, s.workers[j].job).value, s.workers[i].job).Some?
    ensures var more := steps + [System.Execute(j, true, "")] + [System.Execute(i, true, "")];
            Executes(cfg, start, more) && After(cfg, start, more) == ExecutedBoth(After(cfg, start, steps), i, j)
  {
    RunMore(cfg, start, steps, System.Execute(j, true, ""));
    RunMore(cfg, start, steps + [System.Execute(j, true, "")], System.Execute(i, true, ""));
  }

  // The worker reports what it executed, and is idle again.
  lemma TellOne(cfg: Config, start: SystemState, steps: seq<SystemStep>, i: nat)
    requires Executes(cfg, start, steps)
    requires var s := After(cfg, start, steps);
             !s.server.terminated && i < |s.workers| && s.workers[i].Executed?
    ensures var more := steps + [Push(i)] + [Signal(i)];
            && Executes(cfg, start, more)
            && var s, r := After(cfg, start, steps), After(cfg, start, more);
               && r.workers == s.workers[i := Idle] && r.server == s.server && r.tables == s.tables
               && r.executed == s.executed && r.submitted == s.submitted
  {
    RunMore(cfg, start, steps, Push(i));
    RunMore(cfg, start, steps + [Push(i)], Signal(i));
    PushThenSignal(cfg, After(cfg, start, steps), i);
  }

  lemma PushThenSignal(cfg: Config, s: SystemState, i: nat)
    requires !s.server.terminated && i < |s.workers| && s.workers[i].Executed?
    ensures Enabled(cfg, s, Push(i)) && Enabled(cfg, Next(cfg, s, Push(i)), Signal(i))
    ensures var r := Next(cfg, Next(cfg, s, Push(i)), Signal(i));
            && r.workers == s.workers[i := Idle] && r.server == s.server && r.tables == s.tables
            && r.executed == s.executed && r.submitted == s.submitted
  {
    assert s.workers[i := Signalling][i := Idle] == s.workers[i := Idle];
  }

  /** Whenever two workers are idle and two saves of one character, whose account is registered, are at
      the head of the queue, the older one can be committed last: then both are executed, neither
      failed, and the row stands at the older position; whatever else is queued stays there. */
  lemma OlderSaveWins(
    cfg: Config, start: SystemState, steps: seq<SystemStep>, i: nat, j: nat, older: Save, newer: Save)
    requires Executes(cfg, start, steps) && TwoIdle(After(cfg, start, steps), i, j)
    requires var s := After(cfg, start, steps);
             && |s.server.jobs| >= 2 && SaveOf(s.server.jobs[0]) == Some(older)
             && SaveOf(s.server.jobs[1]) == Some(newer)
             && older.account == newer.account && older.character == newer.character
             && older.write.Position? && newer.write.Position? && older.account in s.tables.players
    ensures var s, more := After(cfg, start, steps), steps + Overtake(i, j);
            && Executes(cfg, start, more)
            && var r := After(cfg, start, more);
               && r.server == s.server.(jobs := s.server.jobs[2..])
               && r.workers == s.workers && r.submitted == s.submitted
               && r.executed ==
                  s.executed + [Execution(s.server.jobs[1], true, "")] + [Execution(s.server.jobs[0], true, "")]
               && StandsAt(RowOf(r.tables, older.account, older.character), older.write)
  {
    var s := After(cfg, start, steps);
    var a, b := s.server.jobs[0], s.server.jobs[1];
    var took := steps + [Take(i)] + [Take(j)];
    TakeBoth(cfg, start, steps, i, j);
    CommitsInTurn(s.tables, a, b, older, newer);
    var did := took + [System.Execute(j, true, "")] + [System.Execute(i, true, "")];
    ExecuteBoth(cfg, start, took, i, j);
    TellBoth(cfg, start, did, i, j);
    OvertakeIs(steps, i, j);
    IdleAgain(s.workers, i, j, Executing(a), Executing(b),
              After(cfg, start, did).workers[i], After(cfg, start, did).workers[j]);
  }

  lemma IdleAgain(workers: seq<Worker>, i: nat, j: nat, a: Worker, b: Worker, c: Worker, d: Worker)
    requires i < |workers| && j < |workers| && i != j && workers[i] == Idle && workers[j] == Idle
    ensures workers[i := a][j := b][j := d][i := c][i := Idle][j := Idle] == workers
  {
  }

  lemma TellBoth(cfg: Config, start: SystemState, steps: seq<SystemStep>, i: nat, j: nat)
    requires Executes(cfg, start, steps)
    requires var s := After(cfg, start, steps);
             && !s.server.terminated && i < |s.workers| && j < |s.workers| && i != j
             && s.workers[i].Executed? && s.workers[j].Executed?
    ensures var more := steps + [Push(i)] + [Signal(i)] + [Push(j)] + [Signal(j)];
            && Executes(cfg, start, more)
            && var s, r := After(cfg, start, steps), After(cfg, start, more);
               && r.workers == s.workers[i := Idle][j := Idle] && r.server == s.server && r.tables == s.tables
               && r.executed == s.executed && r.submitted == s.submitted
  {
    TellOne(cfg, start, steps, i);
    TellOne(cfg, start, steps + [Push(i)] + [Signal(i)], j);
  }

  function Overtake(i: nat, j: nat): seq<SystemStep> {
    [Take(i), Take(j), System.Execute(j, true, ""), System.Execute(i, true, ""), Push(i), Signal(i), Push(j), Signal(j)]
  }

  lemma OvertakeIs(steps: seq<SystemStep>, i: nat, j: nat)
    ensures steps + Overtake(i, j) ==
            steps + [Take(i)] + [Take(j)] + [System.Execute(j, true, "")] + [System.Execute(i, true, "")]
            + [Push(i)] + [Signal(i)] + [Push(j)] + [Signal(j)]
  {
  }

  predicate StandsAt(row: Option<Row>, write: Write) {
    row.Some? && write == Position(row.value.x, row.value.y)
  }

  lemma CommitsInTurn(t: Database, a: DbJob, b: DbJob, older: Save, newer: Save)
    requires SaveOf(a) == Some(older) && SaveOf(b) == Some(newer) && older.account in t.players
    requires older.account == newer.account && older.character == newer.character
    requires older.write.Position? && newer.write.Position?
    ensures Commit(t, b).Some? && Commit(Commit(t, b).value, a).Some?
    ensures T.Execute(T.Execute(t, Execution(b, true, "")), Execution(a, true, "")) ==
            Commit(Commit(t, b).value, a).value
    ensures StandsAt(RowOf(Commit(Commit(t, b).value, a).value, older.account, older.character), older.write)
  {
  }

  // ---------- The exact condition ----------

  // Whenever all submitted jobs are executed and no position save of the character failed, its row
  // stands at the position submitted last.
  ghost predicate AlwaysStandsAtLast(
    cfg: Config, workers: nat, database: Database, account: string, character: string)
  {
    forall s ::
      ReachableFrom(cfg, workers, database, s) && AllExecuted(s) && AllSaved(s.executed, account, character) ==>
        StandsAtLast(s, account, character)
  }

  // A run in which one client enters at 0 0 and again at 1 1, and two workers save in the wrong order.
  function TwoEnters(account: string, character: string): seq<SystemStep> {
    var ref := SessionRef(4, 1);
    [] + [Accept(Some(4))] + [Receive(ref, EnterLine(Corner(account, character, 0)) + "\n")]
    + [Receive(ref, EnterLine(Corner(account, character, 1)) + "\n")]
  }

  lemma TwoEntersQueueTwoSaves(cfg: Config, workers: nat, database: Database, account: string, character: string)
    requires ValidOrder(cfg.order) && IsWord(account) && IsWord(character)
    requires |EnterLine(Corner(account, character, 0))| < cfg.recvBuffer
    requires |EnterLine(Corner(account, character, 1))| < cfg.recvBuffer
    ensures var start, steps, ref := Start(workers, database), TwoEnters(account, character), SessionRef(4, 1);
            && Executes(cfg, start, steps)
            && Entered(After(cfg, start, steps), workers, database,
                       [SaveJob(ref, 1, Corner(account, character, 0))] +
                       [SaveJob(ref, 2, Corner(account, character, 1))], ref)
  {
    var ref, p, q := SessionRef(4, 1), Corner(account, character, 0), Corner(account, character, 1);
    var steps := [] + [Accept(Some(4))] + [Receive(ref, EnterLine(p) + "\n")];
    OneEnterQueuesOneSave(cfg, workers, database, 4, p);
    EnterRun(cfg, workers, database, steps, [SaveJob(ref, 1, p)], ref, q);
  }

  lemma OneEnterQueuesOneSave(cfg: Config, workers: nat, database: Database, fd: int, p: Place)
    requires ValidOrder(cfg.order) && Enterable(p) && |EnterLine(p)| < cfg.recvBuffer
    ensures var start, ref := Start(workers, database), SessionRef(fd, 1);
            var steps := [] + [Accept(Some(fd))] + [Receive(ref, EnterLine(p) + "\n")];
            && Executes(cfg, start, steps)
            && Entered(After(cfg, start, steps), workers, database, [SaveJob(ref, 1, p)], ref)
  {
    ConnectRun(cfg, workers, database, fd);
    FirstEnterRun(cfg, workers, database, [] + [Accept(Some(fd))], SessionRef(fd, 1), p);
  }

  lemma FirstEnterRun(
    cfg: Config, workers: nat, database: Database, steps: seq<SystemStep>, ref: SessionRef, p: Place)
    requires ValidOrder(cfg.order) && Executes(cfg, Start(workers, database), steps)
    requires Entered(After(cfg, Start(workers, database), steps), workers, database, [], ref)
    requires Enterable(p) && |EnterLine(p)| < cfg.recvBuffer
    ensures var start, more := Start(workers, database), steps + [Receive(ref, EnterLine(p) + "\n")];
            && Executes(cfg, start, more)
            && Entered(After(cfg, start, more), workers, database, [SaveJob(ref, 1, p)], ref)
  {
    EnterRun(cfg, workers, database, steps, [], ref, p);
    assert [] + [SaveJob(ref, 1, p)] == [SaveJob(ref, 1, p)];
  }

  /** With two or more workers, one client of a registered account can bring it about that everything it
      asked to save is committed and its character's row still stands at an older position. */
  lemma TwoEntersCanEndStale(cfg: Config, workers: nat, database: Database, account: string, character: string)
    requires workers >= 2 && ValidOrder(cfg.order) && account in database.players
    requires IsWord(account) && IsWord(character)
    requires |EnterLine(Corner(account, character, 0))| < cfg.recvBuffer
    requires |EnterLine(Corner(account, character, 1))| < cfg.recvBuffer
    ensures var start, steps := Start(workers, database), TwoEnters(account, character) + Overtake(0, 1);
            && Executes(cfg, start, steps)
            && var s := After(cfg, start, steps);
               && AllExecuted(s) && AllSaved(s.executed, account, character)
               && LastAsked(s.submitted, account, character) == Some(Position(1, 1))
               && StandsAt(RowOf(s.tables, account, character), Position(0, 0))
  {
    TwoEntersQueueTwoSaves(cfg, workers, database, account, character);
    OvertakenEndsStale(cfg, workers, database, TwoEnters(account, character), SessionRef(4, 1),
                       Corner(account, character, 0), Corner(account, character, 1));
  }

  // Two queued saves of one character, when two workers are idle.
  lemma OvertakenEndsStale(
    cfg: Config, workers: nat, database: Database, steps: seq<SystemStep>, ref: SessionRef, p: Place, q: Place)
    requires workers >= 2 && p.account in database.players && Executes(cfg, Start(workers, database), steps)
    requires Entered(After(cfg, Start(workers, database), steps), workers, database,
                     [SaveJob(ref, 1, p)] + [SaveJob(ref, 2, q)], ref)
    requires FitsIntPlace(p) && FitsIntPlace(q) && p.account == q.account && p.character == q.character
    ensures var start, more := Start(workers, database), steps + Overtake(0, 1);
            && Executes(cfg, start, more)
            && var s := After(cfg, start, more);
               && AllExecuted(s) && AllSaved(s.executed, p.account, p.character)
               && LastAsked(s.submitted, p.account, p.character) == Some(Position(q.x, q.y))
               && StandsAt(RowOf(s.tables, p.account, p.character), Position(p.x, p.y))
  {
    SavesAreQueued(workers, database, After(cfg, Start(workers, database), steps), ref, p, q);
    OlderSaveWins(cfg, Start(workers, database), steps, 0, 1, SaveAt(p), SaveAt(q));
    AllIsDone(workers, database, After(cfg, Start(workers, database), steps + Overtake(0, 1)),
              SaveJob(ref, 1, p), SaveJob(ref, 2, q), q);
  }

  function SaveAt(p: Place): Save {
    Save(p.account, p.character, Position(p.x, p.y))
  }

  lemma SavesAreQueued(workers: nat, database: Database, s: SystemState, ref: SessionRef, p: Place, q: Place)
    requires workers >= 2 && FitsIntPlace(p) && FitsIntPlace(q)
    requires Entered(s, workers, database, [SaveJob(ref, 1, p)] + [SaveJob(ref, 2, q)], ref)
    ensures TwoIdle(s, 0, 1) && |s.server.jobs| == 2
    ensures SaveOf(s.server.jobs[0]) == Some(SaveAt(p)) && SaveOf(s.server.jobs[1]) == Some(SaveAt(q))
    ensures SaveOf(SaveJob(ref, 2, q)) == Some(SaveAt(q))
  {
    PositionRoundTrip(SaveJob(ref, 1, p), p);
    PositionRoundTrip(SaveJob(ref, 2, q), q);
  }

  lemma AllIsDone(workers: nat, database: Database, s: SystemState, a: DbJob, b: DbJob, q: Place)
    requires s.server.jobs == [] && s.workers == Start(workers, database).workers
    requires s.executed == [] + [Execution(b, true, "")] + [Execution(a, true, "")] && s.submitted == [a] + [b]
    requires SaveOf(b) == Some(Save(q.account, q.character, Position(q.x, q.y)))
    ensures AllExecuted(s) && AllSaved(s.executed, q.account, q.character)
    ensures LastAsked(s.submitted, q.account, q.character) == Some(Position(q.x, q.y))
  {
    LastOfTwo(a, b, q.account, q.character, Position(q.x, q.y));
  }

  lemma LastOfTwo(a: DbJob, b: DbJob, account: string, character: string, write: Write)
    requires SaveOf(b) == Some(Save(account, character, write)) && write.Position?
    ensures LastAsked([a] + [b], account, character) == Some(write)
  {
  }

  /** So the last submitted position wins for certain iff there is at most one worker. */
  lemma LastPositionWinsIff(cfg: Config, workers: nat, database: Database, account: string, character: string)
    requires ValidOrder(cfg.order) && DatabaseValid(database) && account in database.players
    requires IsWord(account) && IsWord(character)
    requires |EnterLine(Corner(account, character, 0))| < cfg.recvBuffer
    requires |EnterLine(Corner(account, character, 1))| < cfg.recvBuffer
    ensures AlwaysStandsAtLast(cfg, workers, database, account, character) <==> workers <= 1
  {
    if workers <= 1 {
      forall s | ReachableFrom(cfg, workers, database, s) && AllExecuted(s) && AllSaved(s.executed, account, character)
        ensures StandsAtLast(s, account, character)
      {
        OneWorkerStoresTheLastPosition(cfg, workers, database, s, account, character);
      }
    } else {
      TwoEntersCanEndStale(cfg, workers, database, account, character);
      var s := After(cfg, Start(workers, database), TwoEnters(account, character) + Overtake(0, 1));
      assert ReachableFrom(cfg, workers, database, s);
      assert !StandsAtLast(s, account, character);
    }
  }
}

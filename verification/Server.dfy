/** The event loop's state and its handlers, as values.  Next to what the server itself keeps, a
    state records which operations are in flight in the kernel, which connections the kernel has
    open, and a history of each connection that no handler reads. */
module Server {
  import opened Decimal
  import opened Geometry
  import W = World
  import opened World
  import Views
  import opened Protocol
  import F = Framing

  // ---------- Jobs, replies, tokens ----------

  datatype DbOperation =
    | RegisterPlayer | LoginPlayer | SaveCharacterRow | LoadCharacterRows
    | SaveInventoryRow | LoadInventoryRows | SavePosition

  // What a completion repeats of its job: who asked, under which id, and whether anyone waits.
  datatype Ticket = Ticket(ref: SessionRef, id: nat, notify: bool)

  datatype DbJob = DbJob(ticket: Ticket, operation: DbOperation, name: string, args: seq<string>)

  datatype DbCompletion = DbCompletion(ticket: Ticket, ok: bool, line: string)

  datatype Reply =
    | Hello
    | Refused(error: ParseError)
    | Unsupported
    | LineTooLong
    | Bye
    | Pending(id: nat, name: string)
    | Answer(id: nat, ok: bool, line: string)
    | InWorld(told: WorldLine)

  datatype Token =
    | AcceptToken
    | RecvToken(ref: SessionRef)
    | SendToken(ref: SessionRef, payload: string)
    | DatabaseToken

  // The text of the replies and the order in which hash sets iterate are the environment's.
  datatype Config = Config(maxLine: nat, recvBuffer: pos, text: Reply -> string, order: Order)

  // ---------- State ----------

  datatype Session = Session(
    fd: int, generation: nat, input: string, outbox: seq<string>,
    writeInFlight: bool, closeAfterFlush: bool, pendingDb: nat)

  // How a connection ended: not yet, after everything queued was sent, or by a failure.
  datatype Ending = Open | Flushed | Dropped

  datatype History = History(
    chunks: seq<string>,  // received
    lines: seq<string>,   // handled
    queued: seq<Reply>,   // replies queued
    sent: string,         // bytes the kernel took
    saves: seq<DbJob>,    // position saves submitted
    settled: bool,        // entered, and no own move since brought anyone into or out of range
    ending: Ending)

  datatype ServerState = ServerState(
    sessions: map<int, Session>,
    nextRequestId: nat,
    nextGeneration: nat,
    world: WorldState,
    jobs: seq<DbJob>,             // the queue to the database workers
    tokens: multiset<Token>,      // operations in flight
    openFds: set<int>,            // connections the kernel has open
    terminated: bool,             // an exception left the event loop
    outstanding: set<Ticket>,     // history: submitted, not yet answered
    hist: map<SessionRef, History>)

  const SECTOR_SIZE: pos := 100
  const VIEW_RADIUS: nat := 1

  function Initial(): ServerState {
    ServerState(map[], 1, 1, EmptyWorld(SECTOR_SIZE, VIEW_RADIUS), [],
                multiset{AcceptToken, DatabaseToken}, {}, false, {}, map[])
  }

  function RefOf(session: Session): SessionRef {
    SessionRef(session.fd, session.generation)
  }

  predicate SessionMatches(s: ServerState, ref: SessionRef) {
    ref.fd in s.sessions && s.sessions[ref.fd].generation == ref.generation
  }

  function HistoryOf(s: ServerState, ref: SessionRef): History {
    if ref in s.hist then s.hist[ref] else History([], [], [], "", [], false, Open)
  }

  function Note(s: ServerState, ref: SessionRef, h: History): ServerState {
    s.(hist := s.hist[ref := h])
  }

  // ---------- Sending ----------

  // Every queued line ends in a newline.
  function Framed(line: string): (framed: string)
    ensures framed != "" && framed[|framed| - 1] == '\n'
    ensures framed == line || framed == line + "\n"
  {
    if line == "" || line[|line| - 1] != '\n' then line + "\n" else line
  }

  function PostSend(s: ServerState, fd: int): ServerState {
    if fd !in s.sessions then s
    else
      var session := s.sessions[fd];
      if session.writeInFlight || session.outbox == [] then s
      else
        s.(sessions := s.sessions[fd := session.(writeInFlight := true)],
           tokens := s.tokens + multiset{SendToken(RefOf(session), session.outbox[0])})
  }

  function PushBack(cfg: Config, s: ServerState, ref: SessionRef, reply: Reply): ServerState
    requires SessionMatches(s, ref)
  {
    var session := s.sessions[ref.fd];
    var h := HistoryOf(s, ref);
    var s1 := s.(sessions := s.sessions[ref.fd := session.(outbox := session.outbox + [Framed(cfg.text(reply))])]);
    Note(s1, ref, h.(queued := h.queued + [reply]))
  }

  function QueueResponse(cfg: Config, s: ServerState, ref: SessionRef, reply: Reply): ServerState {
    if !SessionMatches(s, ref) then s else PostSend(PushBack(cfg, s, ref, reply), ref.fd)
  }

  function Deliver(cfg: Config, s: ServerState, events: seq<WorldEvent>): ServerState {
    if events == [] then s
    else
      var last := events[|events| - 1];
      QueueResponse(cfg, Deliver(cfg, s, events[..|events| - 1]), last.receiver, InWorld(last.line))
  }

  // ---------- Database jobs ----------

  function OperationFor(c: Command): Option<DbOperation> {
    match c
    case Register => Some(RegisterPlayer)
    case Login => Some(LoginPlayer)
    case SaveCharacter => Some(SaveCharacterRow)
    case LoadCharacters => Some(LoadCharacterRows)
    case SaveInventoryItem => Some(SaveInventoryRow)
    case LoadInventory => Some(LoadInventoryRows)
    case _ => None
  }

  function Submit(s: ServerState, job: DbJob): ServerState {
    s.(jobs := s.jobs + [job], outstanding := s.outstanding + {job.ticket})
  }

  datatype Place = Place(account: string, character: string, x: int, y: int)

  function SaveArgs(p: Place): seq<string> {
    [p.account, p.character, ToString(p.x), ToString(p.y)]
  }

  function SubmitPositionSave(s: ServerState, ref: SessionRef, p: Place): ServerState {
    var job := DbJob(Ticket(ref, s.nextRequestId, false), SavePosition, "SAVE_POSITION", SaveArgs(p));
    var h := HistoryOf(s, ref);
    Submit(Note(s.(nextRequestId := s.nextRequestId + 1), ref, h.(saves := h.saves + [job])), job)
  }

  // One more request id, and one more answer to wait for.
  function Expect(s: ServerState, ref: SessionRef): ServerState
    requires SessionMatches(s, ref)
  {
    var session := s.sessions[ref.fd];
    s.(nextRequestId := s.nextRequestId + 1,
       sessions := s.sessions[ref.fd := session.(pendingDb := session.pendingDb + 1)])
  }

  function RequestJob(cfg: Config, s: ServerState, ref: SessionRef, operation: DbOperation, r: Request): ServerState
    requires SessionMatches(s, ref)
  {
    var id := s.nextRequestId;
    Submit(QueueResponse(cfg, Expect(s, ref), ref, Pending(id, r.name)),
           DbJob(Ticket(ref, id, true), operation, r.name, r.args))
  }

  // ---------- Client lines ----------

  // The world's new state, and its events to whom they concern.
  function Publish(cfg: Config, s: ServerState, outcome: Outcome): ServerState {
    Deliver(cfg, s.(world := outcome.world), outcome.events)
  }

  // Leaving the world on the way out, with the save of the last position.
  function Depart(cfg: Config, s: ServerState, ref: SessionRef): ServerState {
    DepartWith(Publish(cfg, s, W.Leave(s.world, cfg.order, ref)), ref, SnapshotOf(s.world, ref))
  }

  function DepartWith(s: ServerState, ref: SessionRef, snapshot: PlayerSnapshot): ServerState {
    if snapshot.account == "" then s
    else SubmitPositionSave(s, ref, Place(snapshot.account, snapshot.character, snapshot.x, snapshot.y))
  }

  function CloseAfterFlush(s: ServerState, ref: SessionRef): ServerState
    requires ref.fd in s.sessions
  {
    s.(sessions := s.sessions[ref.fd := s.sessions[ref.fd].(closeAfterFlush := true)])
  }

  // A world operation and its events; `settled` is history only.
  function InTheWorld(cfg: Config, s: ServerState, op: Op): ServerState {
    var settled := Views.StaysSettled(s.world, HistoryOf(s, op.ref).settled, op.ref, op);
    Publish(cfg, Settle(s, op.ref, settled), W.Apply(s.world, cfg.order, op))
  }

  function Settle(s: ServerState, ref: SessionRef, settled: bool): ServerState {
    var h := HistoryOf(s, ref);
    Note(s, ref, h.(settled := settled))
  }

  function HandleQuit(cfg: Config, s: ServerState, ref: SessionRef): ServerState {
    var s1 := QueueResponse(cfg, Depart(cfg, s, ref), ref, Bye);
    if ref.fd in s1.sessions then CloseAfterFlush(s1, ref) else s1
  }

  function HandleEnter(cfg: Config, s: ServerState, ref: SessionRef, p: Place): ServerState {
    SubmitPositionSave(InTheWorld(cfg, s, DoEnter(ref, p.account, p.character, p.x, p.y)), ref, p)
  }

  // What a request asks of the world: nothing, something, or numbers beyond 32 bits.
  datatype WorldRequest = NoWorld | OutOfRange | InRange(op: Op)

  function WorldRequestOf(ref: SessionRef, r: Request): WorldRequest
    requires ValidRequest(r)
  {
    CoordinatesOf(r);
    match r.command
    case EnterWorld =>
      var x, y := Stoi(r.args[2]), Stoi(r.args[3]);
      if x.None? || y.None? then OutOfRange else InRange(DoEnter(ref, r.args[0], r.args[1], x.value, y.value))
    case MoveTo =>
      var x, y := Stoi(r.args[0]), Stoi(r.args[1]);
      if x.None? || y.None? then OutOfRange else InRange(DoMove(ref, x.value, y.value))
    case AttackTarget => InRange(DoAttack(ref, r.args[0], r.args[1]))
    case _ => NoWorld
  }

  lemma CoordinatesOf(r: Request)
    requires ValidRequest(r)
    ensures r.command == EnterWorld ==>
              |r.args| == 4 && IsSignedNumber(r.args[2]) && IsSignedNumber(r.args[3]) && r.args[0] != ""
    ensures r.command == MoveTo ==> |r.args| == 2 && IsSignedNumber(r.args[0]) && IsSignedNumber(r.args[1])
  {
    if r.command == EnterWorld {
      EnterNumbers(r.args);
      assert IsWord(r.args[0]);
    }
    if r.command == MoveTo {
      MoveNumbers(r.args);
    }
  }

  // An entry is saved at once; other world operations are not.
  function HandleWorld(cfg: Config, s: ServerState, op: Op): ServerState {
    if op.DoEnter? then HandleEnter(cfg, s, op.ref, Place(op.account, op.character, op.x, op.y))
    else InTheWorld(cfg, s, op)
  }

  function HandleDatabase(cfg: Config, s: ServerState, ref: SessionRef, r: Request): ServerState
    requires SessionMatches(s, ref)
  {
    match OperationFor(r.command)
    case None => QueueResponse(cfg, s, ref, Unsupported)
    case Some(operation) => RequestJob(cfg, s, ref, operation, r)
  }

  // What handling an accepted request does, short of recording the line.  `std::stoi` throws for
  // numbers beyond 32 bits, and nothing in the event loop catches it.
  function HandleRequest(cfg: Config, s: ServerState, ref: SessionRef, r: Request): ServerState
    requires SessionMatches(s, ref) && ValidRequest(r)
  {
    if r.command == Quit then HandleQuit(cfg, s, ref)
    else
      match WorldRequestOf(ref, r)
      case OutOfRange => s.(terminated := true)
      case InRange(op) => HandleWorld(cfg, s, op)
      case NoWorld => HandleDatabase(cfg, s, ref, r)
  }

  function Handle(cfg: Config, s: ServerState, ref: SessionRef, line: string): ServerState
    requires SessionMatches(s, ref)
  {
    match Parse(line)
    case Error(e) => QueueResponse(cfg, s, ref, Refused(e))
    case Ok(r) =>
      ParseAccepts(line, r);
      HandleRequest(cfg, s, ref, r)
  }

  // Handling one line, and recording that it was handled.
  function HandleLine(cfg: Config, s: ServerState, ref: SessionRef, line: string): ServerState
    requires SessionMatches(s, ref)
  {
    var s1 := Handle(cfg, s, ref, line);
    var h := HistoryOf(s1, ref);
    Note(s1, ref, h.(lines := h.lines + [line]))
  }

  predicate IsQuit(line: string) {
    var p := Parse(line);
    p.Ok? && p.request.command == Quit
  }

  // ---------- What handling a line leaves alone ----------

  predicate SameButSending(a: Session, b: Session) {
    && a.fd == b.fd && a.generation == b.generation && a.input == b.input
    && a.closeAfterFlush == b.closeAfterFlush && a.pendingDb == b.pendingDb
  }

  ghost predicate SameSessions(s: ServerState, r: ServerState) {
    && r.sessions.Keys == s.sessions.Keys
    && forall fd :: fd in s.sessions ==> SameButSending(s.sessions[fd], r.sessions[fd])
  }

  lemma QueueKeepsSessions(cfg: Config, s: ServerState, ref: SessionRef, reply: Reply)
    ensures SameSessions(s, QueueResponse(cfg, s, ref, reply))
  {
  }

  lemma {:induction false} DeliverKeepsSessions(cfg: Config, s: ServerState, events: seq<WorldEvent>)
    ensures SameSessions(s, Deliver(cfg, s, events))
  {
    if events == [] {
    } else {
      DeliverKeepsSessions(cfg, s, events[..|events| - 1]);
      var last := events[|events| - 1];
      QueueKeepsSessions(cfg, Deliver(cfg, s, events[..|events| - 1]), last.receiver, InWorld(last.line));
    }
  }

  lemma PublishKeepsSessions(cfg: Config, s: ServerState, outcome: Outcome)
    ensures SameSessions(s, Publish(cfg, s, outcome))
  {
    DeliverKeepsSessions(cfg, s.(world := outcome.world), outcome.events);
  }

  lemma DepartKeepsSessions(cfg: Config, s: ServerState, ref: SessionRef)
    ensures SameSessions(s, Depart(cfg, s, ref))
  {
    PublishKeepsSessions(cfg, s, W.Leave(s.world, cfg.order, ref));
  }

  // Handling a line changes no session's buffer and ends no session.
  ghost predicate SameInput(s: ServerState, r: ServerState) {
    && r.sessions.Keys == s.sessions.Keys
    && forall fd :: fd in s.sessions ==>
          r.sessions[fd].generation == s.sessions[fd].generation && r.sessions[fd].input == s.sessions[fd].input
  }

  lemma HandleKeepsInput(cfg: Config, s: ServerState, ref: SessionRef, line: string)
    requires SessionMatches(s, ref)
    ensures SameInput(s, HandleLine(cfg, s, ref, line))
    ensures SessionMatches(HandleLine(cfg, s, ref, line), ref)
  {
    var p := Parse(line);
    match p
    case Error(e) => QueueKeepsSessions(cfg, s, ref, Refused(e));
    case Ok(r) =>
      ParseAccepts(line, r);
      RequestKeepsInput(cfg, s, ref, r);
  }

  lemma WorldOpKeepsInput(cfg: Config, s: ServerState, op: Op)
    ensures SameInput(s, InTheWorld(cfg, s, op))
  {
    var settled := Views.StaysSettled(s.world, HistoryOf(s, op.ref).settled, op.ref, op);
    PublishKeepsSessions(cfg, Settle(s, op.ref, settled), W.Apply(s.world, cfg.order, op));
  }

  lemma QuitKeepsInput(cfg: Config, s: ServerState, ref: SessionRef)
    ensures SameInput(s, HandleQuit(cfg, s, ref))
  {
    DepartKeepsSessions(cfg, s, ref);
    QueueKeepsSessions(cfg, Depart(cfg, s, ref), ref, Bye);
  }

  lemma DatabaseKeepsInput(cfg: Config, s: ServerState, ref: SessionRef, r: Request)
    requires SessionMatches(s, ref)
    ensures SameInput(s, HandleDatabase(cfg, s, ref, r))
  {
    match OperationFor(r.command)
    case None => QueueKeepsSessions(cfg, s, ref, Unsupported);
    case Some(operation) => QueueKeepsSessions(cfg, Expect(s, ref), ref, Pending(s.nextRequestId, r.name));
  }

  lemma RequestKeepsInput(cfg: Config, s: ServerState, ref: SessionRef, r: Request)
    requires SessionMatches(s, ref) && ValidRequest(r)
    ensures SameInput(s, HandleRequest(cfg, s, ref, r))
  {
    if r.command == Quit {
      QuitKeepsInput(cfg, s, ref);
    } else {
      match WorldRequestOf(ref, r)
      case OutOfRange =>
      case InRange(op) => WorldOpKeepsInput(cfg, s, op);
      case NoWorld => DatabaseKeepsInput(cfg, s, ref, r);
    }
  }

  // ---------- The receive handler ----------

  function PostRecv(s: ServerState, ref: SessionRef): ServerState {
    s.(tokens := s.tokens + multiset{RecvToken(ref)})
  }

  // Taking a line of length `n` out of the buffer and handling it.
  function NextLine(cfg: Config, s: ServerState, ref: SessionRef, n: nat): ServerState
    requires SessionMatches(s, ref) && n < |s.sessions[ref.fd].input|
  {
    var session := s.sessions[ref.fd];
    var s1 := s.(sessions := s.sessions[ref.fd := session.(input := session.input[n + 1..])]);
    HandleLine(cfg, s1, ref, session.input[..n])
  }

  lemma NextLineShortens(cfg: Config, s: ServerState, ref: SessionRef, n: nat)
    requires SessionMatches(s, ref) && n < |s.sessions[ref.fd].input|
    ensures var r := NextLine(cfg, s, ref, n);
            SessionMatches(r, ref) && r.sessions[ref.fd].input == s.sessions[ref.fd].input[n + 1..]
  {
    var session := s.sessions[ref.fd];
    var s1 := s.(sessions := s.sessions[ref.fd := session.(input := session.input[n + 1..])]);
    HandleKeepsInput(cfg, s1, ref, session.input[..n]);
  }

  // Handling every complete line in the buffer, until one ends the conversation or throws.
  function ProcessLines(cfg: Config, s: ServerState, ref: SessionRef): ServerState
    requires SessionMatches(s, ref)
    decreases |s.sessions[ref.fd].input|
  {
    match F.FindNewline(s.sessions[ref.fd].input)
    case None => s
    case Some(n) =>
      NextLineShortens(cfg, s, ref, n);
      var s1 := NextLine(cfg, s, ref, n);
      if s1.terminated || !SessionMatches(s1, ref) || s1.sessions[ref.fd].closeAfterFlush then s1
      else ProcessLines(cfg, s1, ref)
  }

  lemma {:induction false} ProcessLinesKeepsSession(cfg: Config, s: ServerState, ref: SessionRef)
    requires SessionMatches(s, ref)
    ensures SessionMatches(ProcessLines(cfg, s, ref), ref)
    decreases |s.sessions[ref.fd].input|
  {
    match F.FindNewline(s.sessions[ref.fd].input)
    case None =>
    case Some(n) =>
      NextLineShortens(cfg, s, ref, n);
      var s1 := NextLine(cfg, s, ref, n);
      if !(s1.terminated || s1.sessions[ref.fd].closeAfterFlush) {
        ProcessLinesKeepsSession(cfg, s1, ref);
      }
  }

  // After the lines: refuse an overlong rest, then read on or close.
  function FinishRecv(cfg: Config, s: ServerState, ref: SessionRef): ServerState
    requires SessionMatches(s, ref)
  {
    var s1 :=
      if |s.sessions[ref.fd].input| > cfg.maxLine then
        var refused := QueueResponse(cfg, s, ref, LineTooLong);
        CloseAfterFlush(refused, ref)
      else s;
    if !s1.sessions[ref.fd].closeAfterFlush then PostRecv(s1, ref) else MaybeCloseAfterFlush(cfg, s1, ref.fd)
  }

  function Consume(s: ServerState, token: Token): ServerState {
    s.(tokens := s.tokens - multiset{token})
  }

  // The receive handler puts the chunk into the session's buffer.
  function Append(s: ServerState, ref: SessionRef, chunk: string): ServerState
    requires SessionMatches(s, ref)
  {
    var session := s.sessions[ref.fd];
    var h := HistoryOf(s, ref);
    Note(s.(sessions := s.sessions[ref.fd := session.(input := session.input + chunk)]),
         ref, h.(chunks := h.chunks + [chunk]))
  }

  function OnRecv(cfg: Config, s: ServerState, ref: SessionRef, chunk: string): ServerState {
    var s0 := Consume(s, RecvToken(ref));
    if !SessionMatches(s0, ref) then s0
    else if chunk == "" then CloseSession(cfg, s0, ref.fd, Dropped)
    else
      var s1 := Append(s0, ref, chunk);
      ProcessLinesKeepsSession(cfg, s1, ref);
      var s2 := ProcessLines(cfg, s1, ref);
      if s2.terminated then s2 else FinishRecv(cfg, s2, ref)
  }

  // ---------- Closing ----------

  function CloseSession(cfg: Config, s: ServerState, fd: int, ending: Ending): ServerState {
    if fd !in s.sessions then s
    else
      var ref := RefOf(s.sessions[fd]);
      var s1 := Depart(cfg, s, ref);
      var h := HistoryOf(s1, ref);
      Note(s1.(sessions := s1.sessions - {fd}, openFds := s1.openFds - {ref.fd}), ref, h.(ending := ending))
  }

  function MaybeCloseAfterFlush(cfg: Config, s: ServerState, fd: int): ServerState {
    if fd !in s.sessions then s
    else
      var session := s.sessions[fd];
      if session.closeAfterFlush && !session.writeInFlight && session.outbox == []
      then CloseSession(cfg, s, fd, Flushed)
      else s
  }

  // ---------- The other handlers ----------

  // A session for a new connection; an existing entry would stay.
  function Connect(s: ServerState, fd: int): ServerState {
    var ref := SessionRef(fd, s.nextGeneration);
    var session := Session(fd, s.nextGeneration, "", [], false, false, 0);
    s.(nextGeneration := s.nextGeneration + 1, openFds := s.openFds + {fd},
       sessions := if fd in s.sessions then s.sessions else s.sessions[fd := session],
       hist := s.hist[ref := HistoryOf(s, ref)])
  }

  // A failed accept posts the next one; a successful one first greets the connection.
  function OnAccept(cfg: Config, s: ServerState, fd: Option<int>): ServerState {
    var s0 := Consume(s, AcceptToken);
    var s1 :=
      match fd
      case None => s0
      case Some(n) =>
        var ref := SessionRef(n, s0.nextGeneration);
        PostRecv(QueueResponse(cfg, Connect(s0, n), ref, Hello), ref);
    s1.(tokens := s1.tokens + multiset{AcceptToken})
  }

  // What the kernel took leaves the outbox.
  function Acknowledge(s: ServerState, ref: SessionRef, payload: string, n: nat): ServerState
    requires SessionMatches(s, ref) && s.sessions[ref.fd].outbox != [] && n <= |payload|
  {
    var session := s.sessions[ref.fd];
    var front := session.outbox[0];
    var outbox := if n >= |front| then session.outbox[1..] else [front[n..]] + session.outbox[1..];
    var h := HistoryOf(s, ref);
    Note(s.(sessions := s.sessions[ref.fd := session.(outbox := outbox)]), ref, h.(sent := h.sent + payload[..n]))
  }

  // The kernel took the first `n` bytes of the payload; `n == 0` stands for a failed send.
  function OnSent(cfg: Config, s: ServerState, ref: SessionRef, payload: string, n: nat): ServerState
    requires n <= |payload|
  {
    var s0 := Consume(s, SendToken(ref, payload));
    if !SessionMatches(s0, ref) then s0
    else
      var session := s0.sessions[ref.fd].(writeInFlight := false);
      var s1 := s0.(sessions := s0.sessions[ref.fd := session]);
      if n == 0 || session.outbox == [] then CloseSession(cfg, s1, ref.fd, Dropped)
      else
        MaybeCloseAfterFlush(cfg, PostSend(Acknowledge(s1, ref, payload, n), ref.fd), ref.fd)
  }

  // One completion taken from the workers.
  function OnCompletion(cfg: Config, s: ServerState, c: DbCompletion): ServerState {
    var s0 := s.(outstanding := s.outstanding - {c.ticket});
    var ref := c.ticket.ref;
    if !c.ticket.notify || !SessionMatches(s0, ref) then s0
    else
      var session := s0.sessions[ref.fd];
      var s1 :=
        if session.pendingDb > 0 then
          s0.(sessions := s0.sessions[ref.fd := session.(pendingDb := session.pendingDb - 1)])
        else s0;
      MaybeCloseAfterFlush(cfg, QueueResponse(cfg, s1, ref, Answer(c.ticket.id, c.ok, c.line)), ref.fd)
  }

  // A loop over a sequence, from its start.
  function Fold<S, E>(f: (S, E) -> S, s: S, es: seq<E>): S {
    if es == [] then s else f(Fold(f, s, es[..|es| - 1]), es[|es| - 1])
  }

  lemma FoldOneMore<S, E>(f: (S, E) -> S, s: S, es: seq<E>, e: E)
    ensures Fold(f, s, es + [e]) == f(Fold(f, s, es), e)
  {
    assert (es + [e])[..|es|] == es;
  }

  function Completing(cfg: Config): (ServerState, DbCompletion) -> ServerState {
    (s, c) => OnCompletion(cfg, s, c)
  }

  // All completions that are there, in order.
  function CompleteAll(cfg: Config, s: ServerState, cs: seq<DbCompletion>): ServerState {
    Fold(Completing(cfg), s, cs)
  }

  function Polling(s: ServerState): ServerState {
    s.(tokens := s.tokens + multiset{DatabaseToken})
  }
}

/** What handling a line queues for each connection and which job it submits, read off the text of the
    line.  The server's own choice of the operation is not used to say so. */
module ServerReplies {
  import opened Decimal
  import W = World
  import opened World
  import opened Protocol
  import F = Framing
  import opened Server
  import opened ServerCore
  import opened ServerSteps
  import opened ServerClosing
  import opened ServerLines
  import opened ServerPlaces
  import opened ServerViews

  // ---------- What a line calls for ----------

  // What a command asks of the database.
  function OperationNamed(name: string): Option<DbOperation> {
    if name == "REGISTER" then Some(RegisterPlayer)
    else if name == "LOGIN" then Some(LoginPlayer)
    else if name == "SAVE" then Some(SaveCharacterRow)
    else if name == "LOAD" then Some(LoadCharacterRows)
    else if name == "SAVE_ITEM" then Some(SaveInventoryRow)
    else if name == "LOAD_INVENTORY" then Some(LoadInventoryRows)
    else None
  }

  lemma OperationFits(r: Request)
    requires ValidRequest(r)
    ensures OperationFor(r.command) == OperationNamed(r.name)
  {
  }

  // A request to the database: what to do, and the words of the line after its first.
  datatype Demand = Demand(operation: DbOperation, name: string, args: seq<string>)

  function AskedBy(line: string): Option<Demand> {
    match Parse(line)
    case Error(_) => None
    case Ok(r) =>
      var operation := OperationNamed(r.name);
      if operation.None? then None else Some(Demand(operation.value, r.name, Words(StripReturn(line))[1..]))
  }

  // The server's own reply to a line; `id` is the next request id.
  function ReplyTo(line: string, id: nat): seq<Reply> {
    match Parse(line)
    case Error(e) => [Refused(e)]
    case Ok(r) => ReplyToCommand(r.name, id)
  }

  function ReplyToCommand(name: string, id: nat): seq<Reply> {
    if name == "QUIT" then [Bye] else if OperationNamed(name).Some? then [Pending(id, name)] else []
  }

  // What an operation tells someone who is live.
  function Tells(w: WorldState, order: Order, op: Option<Op>, live: bool, q: SessionRef): seq<WorldLine> {
    if op.None? || !live then [] else LinesFor(W.Apply(w, order, op.value).events, q)
  }

  // ---------- Queued ----------

  lemma CallsForNothing(w: WorldState, order: Order, live: bool, q: SessionRef, replies: seq<Reply>)
    ensures AsReplies(Tells(w, order, None, live, q)) + replies == replies
    ensures replies + [] == replies
  {
  }

  // The world operation of a request.
  function RequestOp(ref: SessionRef, r: Request): Option<Op>
    requires ValidRequest(r)
  {
    if r.command == Quit then Some(DoLeave(ref))
    else match WorldRequestOf(ref, r)
      case InRange(op) => Some(op)
      case _ => None
  }

  lemma LineCallsFor(ref: SessionRef, line: string, r: Request, id: nat)
    requires Parse(line) == Ok(r)
    ensures ValidRequest(r) && LineOp(ref, line) == RequestOp(ref, r) && ReplyTo(line, id) == ReplyToCommand(r.name, id)
  {
    ParseAccepts(line, r);
  }

  lemma QueuedMore(
    s: ServerState, r: ServerState, t: ServerState, q: SessionRef, lines: seq<WorldLine>, own: seq<Reply>)
    requires Queued(s, r, q, AsReplies(lines)) && Queued(r, t, q, own)
    ensures Queued(s, t, q, AsReplies(lines) + own)
  {
    F.Regroup(s.hist[q].queued, AsReplies(lines), own);
  }

  lemma PublishQueues(cfg: Config, s: ServerState, outcome: Outcome, q: SessionRef)
    requires Core(cfg, s) && q in s.hist
    ensures Queued(s, Publish(cfg, s, outcome), q, AsReplies(if IsLive(s, q) then LinesFor(outcome.events, q) else []))
  {
    var s1 := s.(world := outcome.world);
    QuietKeepsCore(cfg, s, s1);
    DeliverQueues(cfg, s1, outcome.events, q);
  }

  lemma DepartWithQueues(s: ServerState, ref: SessionRef, snapshot: PlayerSnapshot, q: SessionRef)
    requires q in s.hist && ref in s.hist
    ensures Queued(s, DepartWith(s, ref, snapshot), q, [])
  {
  }

  lemma DepartQueues(cfg: Config, s: ServerState, ref: SessionRef, q: SessionRef)
    requires Core(cfg, s) && q in s.hist && ref in s.hist
    ensures Queued(s, Depart(cfg, s, ref), q,
                   AsReplies(Tells(s.world, cfg.order, Some(DoLeave(ref)), IsLive(s, q), q)))
  {
    PublishedQueues(cfg, s, ref, W.Leave(s.world, cfg.order, ref), SnapshotOf(s.world, ref), q);
    LeaveTells(s.world, cfg.order, ref, IsLive(s, q), q);
  }

  lemma LeaveTells(w: WorldState, order: Order, ref: SessionRef, live: bool, q: SessionRef)
    ensures Tells(w, order, Some(DoLeave(ref)), live, q) ==
            if live then LinesFor(W.Leave(w, order, ref).events, q) else []
  {
  }

  lemma PublishedQueues(
    cfg: Config, s: ServerState, ref: SessionRef, outcome: Outcome, snapshot: PlayerSnapshot, q: SessionRef)
    requires Core(cfg, s) && q in s.hist && ref in s.hist
    ensures Queued(s, DepartWith(Publish(cfg, s, outcome), ref, snapshot), q,
                   AsReplies(if IsLive(s, q) then LinesFor(outcome.events, q) else []))
  {
    PublishQueues(cfg, s, outcome, q);
    PublishQueues(cfg, s, outcome, ref);
    DepartWithQueues(Publish(cfg, s, outcome), ref, snapshot, q);
    var lines := if IsLive(s, q) then LinesFor(outcome.events, q) else [];
    QueuedMore(s, Publish(cfg, s, outcome), DepartWith(Publish(cfg, s, outcome), ref, snapshot), q, lines, []);
    NothingAdded(AsReplies(lines));
  }

  lemma QuitQueues(cfg: Config, s: ServerState, ref: SessionRef, q: SessionRef)
    requires Core(cfg, s) && q in s.hist && IsLive(s, ref)
    ensures Queued(s, HandleQuit(cfg, s, ref), q,
                   AsReplies(Tells(s.world, cfg.order, Some(DoLeave(ref)), IsLive(s, q), q)) +
                   if q == ref then [Bye] else [])
  {
    StillThere(cfg, s, ref);
    DepartQueues(cfg, s, ref, q);
    ByeQueues(cfg, s, Depart(cfg, s, ref), ref, q,
              Tells(s.world, cfg.order, Some(DoLeave(ref)), IsLive(s, q), q));
  }

  lemma StillThere(cfg: Config, s: ServerState, ref: SessionRef)
    requires Core(cfg, s) && IsLive(s, ref)
    ensures ref in s.hist && Core(cfg, Depart(cfg, s, ref)) && IsLive(Depart(cfg, s, ref), ref)
  {
    OpenIsPrefix(cfg, s, ref);
    DepartKeepsCore(cfg, s, ref);
    DepartKeepsSessions(cfg, s, ref);
    LiveUnderQuiet(s, Depart(cfg, s, ref), ref);
  }

  lemma ByeQueues(
    cfg: Config, s: ServerState, departed: ServerState, ref: SessionRef, q: SessionRef, lines: seq<WorldLine>)
    requires Core(cfg, departed) && Queued(s, departed, q, AsReplies(lines)) && IsLive(departed, ref)
    ensures var bye := QueueResponse(cfg, departed, ref, Bye);
            Queued(s, if ref.fd in bye.sessions then CloseAfterFlush(bye, ref) else bye, q,
                   AsReplies(lines) + if q == ref then [Bye] else [])
  {
    QueueQueues(cfg, departed, ref, Bye, q);
    QueuedMore(s, departed, QueueResponse(cfg, departed, ref, Bye), q, lines, if q == ref then [Bye] else []);
  }

  lemma InTheWorldQueues(cfg: Config, s: ServerState, op: Op, q: SessionRef)
    requires Core(cfg, s) && q in s.hist && IsLive(s, op.ref)
    ensures Queued(s, InTheWorld(cfg, s, op), q,
                   AsReplies(Tells(s.world, cfg.order, Some(op), IsLive(s, q), q)))
  {
    SettleKeepsCore(cfg, s, op.ref, SettledAfter(s, op));
    PublishQueues(cfg, Settle(s, op.ref, SettledAfter(s, op)), W.Apply(s.world, cfg.order, op), q);
  }

  lemma WorldQueues(cfg: Config, s: ServerState, op: Op, q: SessionRef)
    requires Core(cfg, s) && q in s.hist && IsLive(s, op.ref)
    ensures Queued(s, HandleWorld(cfg, s, op), q,
                   AsReplies(Tells(s.world, cfg.order, Some(op), IsLive(s, q), q)))
  {
    OpenIsPrefix(cfg, s, op.ref);
    InTheWorldQueues(cfg, s, op, q);
    InTheWorldQueues(cfg, s, op, op.ref);
  }

  lemma DatabaseQueues(cfg: Config, s: ServerState, ref: SessionRef, r: Request, q: SessionRef)
    requires Core(cfg, s) && q in s.hist && IsLive(s, ref) && OperationFor(r.command).Some?
    ensures Queued(s, HandleDatabase(cfg, s, ref, r), q, if q == ref then [Pending(s.nextRequestId, r.name)] else [])
  {
    OpenIsPrefix(cfg, s, ref);
    RequestIsAnnounce(cfg, s, ref, OperationFor(r.command).value, r);
  }

  lemma WorldOrDatabase(ref: SessionRef, r: Request)
    requires ValidRequest(r)
    ensures r.command == Quit <==> r.name == "QUIT"
    ensures WorldRequestOf(ref, r) == NoWorld && r.command != Quit <==> OperationFor(r.command).Some?
  {
  }

  lemma RequestQueues(cfg: Config, s: ServerState, ref: SessionRef, r: Request, q: SessionRef)
    requires Core(cfg, s) && q in s.hist && IsLive(s, ref) && ValidRequest(r)
    ensures Queued(s, HandleRequest(cfg, s, ref, r), q,
                   AsReplies(Tells(s.world, cfg.order, RequestOp(ref, r), IsLive(s, q), q)) +
                   if q == ref then ReplyToCommand(r.name, s.nextRequestId) else [])
  {
    OperationFits(r);
    WorldOrDatabase(ref, r);
    var op := RequestOp(ref, r);
    var own := if q == ref then ReplyToCommand(r.name, s.nextRequestId) else [];
    CallsForNothing(s.world, cfg.order, IsLive(s, q), q, own);
    CallsForNothing(s.world, cfg.order, IsLive(s, q), q, AsReplies(Tells(s.world, cfg.order, op, IsLive(s, q), q)));
    if r.command == Quit {
      QuitQueues(cfg, s, ref, q);
    } else {
      OpRef(ref, r);
      match WorldRequestOf(ref, r)
      case OutOfRange =>
      case InRange(op) => WorldQueues(cfg, s, op, q);
      case NoWorld => DatabaseQueues(cfg, s, ref, r, q);
    }
  }

  lemma HandleQueues(cfg: Config, s: ServerState, ref: SessionRef, line: string, q: SessionRef)
    requires Core(cfg, s) && q in s.hist && IsLive(s, ref)
    ensures Queued(s, Handle(cfg, s, ref, line), q,
                   AsReplies(Tells(s.world, cfg.order, LineOp(ref, line), IsLive(s, q), q)) +
                   if q == ref then ReplyTo(line, s.nextRequestId) else [])
  {
    match Parse(line)
    case Error(e) =>
      QueueQueues(cfg, s, ref, Refused(e), q);
      CallsForNothing(s.world, cfg.order, IsLive(s, q), q, if q == ref then [Refused(e)] else []);
    case Ok(r) =>
      LineCallsFor(ref, line, r, s.nextRequestId);
      RequestQueues(cfg, s, ref, r, q);
  }

  /** Handling any line queues, for every connection, what the world tells it because of the line, if it
      is live, and then for the connection itself the reply that the line calls for: a refusal with the
      parser's reason, BYE, the announcement of a request under the next id, or nothing. */
  lemma LineIsAnswered(cfg: Config, s: ServerState, ref: SessionRef, line: string, q: SessionRef)
    requires Core(cfg, s) && q in s.hist && IsLive(s, ref)
    ensures Queued(s, HandleLine(cfg, s, ref, line), q,
                   AsReplies(Tells(s.world, cfg.order, LineOp(ref, line), IsLive(s, q), q)) +
                   if q == ref then ReplyTo(line, s.nextRequestId) else [])
  {
    HandleQueues(cfg, s, ref, line, q);
  }

  // ---------- Submitted ----------

  lemma {:induction false} DeliverSubmitsNothing(cfg: Config, s: ServerState, events: seq<WorldEvent>)
    ensures var r := Deliver(cfg, s, events);
            r.jobs == s.jobs && r.nextRequestId == s.nextRequestId && r.terminated == s.terminated
  {
    if events == [] {
    } else {
      DeliverSubmitsNothing(cfg, s, events[..|events| - 1]);
    }
  }

  lemma WorldSubmitsNothing(cfg: Config, s: ServerState, op: Op)
    ensures var r := InTheWorld(cfg, s, op);
            && r.jobs == s.jobs && r.nextRequestId == s.nextRequestId && r.terminated == s.terminated
            && SameSessions(s, r)
  {
    var settled := SettledAfter(s, op);
    var outcome := W.Apply(s.world, cfg.order, op);
    DeliverSubmitsNothing(cfg, Settle(s, op.ref, settled).(world := outcome.world), outcome.events);
    PublishKeepsSessions(cfg, Settle(s, op.ref, settled), outcome);
  }

  function SaveJob(ref: SessionRef, id: nat, p: Place): DbJob {
    DbJob(Ticket(ref, id, false), SavePosition, "SAVE_POSITION", SaveArgs(p))
  }

  // The jobs of a line: the request it makes, or the saves of the places it enters or leaves.
  function JobsFor(
    w: WorldState, id: nat, ref: SessionRef, op: Option<Op>, asked: Option<Demand>): (jobs: seq<DbJob>)
  {
    if asked.Some? then
      [DbJob(Ticket(ref, id, true), asked.value.operation, asked.value.name, asked.value.args)]
    else
      var places := PlacesSaved(w, op);
      seq(|places|, i requires 0 <= i < |places| => SaveJob(ref, id, places[i]))
  }

  // The state after some jobs more, numbered on from the next request id.
  ghost predicate Submits(s: ServerState, r: ServerState, jobs: seq<DbJob>) {
    r.jobs == s.jobs + jobs && r.nextRequestId == s.nextRequestId + |jobs|
  }

  lemma WorldSubmits(cfg: Config, s: ServerState, op: Op)
    requires !op.DoLeave?
    ensures Submits(s, HandleWorld(cfg, s, op), JobsFor(s.world, s.nextRequestId, op.ref, Some(op), None))
  {
    WorldSubmitsNothing(cfg, s, op);
  }

  lemma DepartSubmits(cfg: Config, s: ServerState, ref: SessionRef)
    ensures Submits(s, Depart(cfg, s, ref), JobsFor(s.world, s.nextRequestId, ref, Some(DoLeave(ref)), None))
  {
    var left := W.Leave(s.world, cfg.order, ref);
    DeliverSubmitsNothing(cfg, s.(world := left.world), left.events);
    SavesPlace(s, Publish(cfg, s, left), ref);
  }

  lemma SavesPlace(s: ServerState, s1: ServerState, ref: SessionRef)
    requires s1.jobs == s.jobs && s1.nextRequestId == s.nextRequestId
    ensures Submits(s, DepartWith(s1, ref, SnapshotOf(s.world, ref)),
                    JobsFor(s.world, s.nextRequestId, ref, Some(DoLeave(ref)), None))
  {
  }

  lemma QuitSubmits(cfg: Config, s: ServerState, ref: SessionRef)
    ensures Submits(s, HandleQuit(cfg, s, ref), JobsFor(s.world, s.nextRequestId, ref, Some(DoLeave(ref)), None))
  {
    DepartSubmits(cfg, s, ref);
  }

  // What a request asks of the database.
  function DemandOf(r: Request): Option<Demand> {
    var operation := OperationNamed(r.name);
    if operation.None? then None else Some(Demand(operation.value, r.name, r.args))
  }

  lemma RequestSubmits(cfg: Config, s: ServerState, ref: SessionRef, r: Request)
    requires SessionMatches(s, ref) && ValidRequest(r)
    ensures Submits(s, HandleRequest(cfg, s, ref, r),
                    JobsFor(s.world, s.nextRequestId, ref, RequestOp(ref, r), DemandOf(r)))
  {
    OperationFits(r);
    WorldOrDatabase(ref, r);
    if r.command == Quit {
      QuitSubmits(cfg, s, ref);
    } else {
      OpRef(ref, r);
      match WorldRequestOf(ref, r)
      case OutOfRange =>
      case InRange(op) => WorldSubmits(cfg, s, op);
      case NoWorld =>
    }
  }

  lemma LineAsks(line: string, r: Request)
    requires Parse(line) == Ok(r)
    ensures AskedBy(line) == DemandOf(r)
  {
    ParseAccepts(line, r);
  }

  /** Handling any line submits exactly the jobs it calls for: for a request to the database one job,
      under the next id, to be answered, with the operation its command names and the words that follow
      the command; for an entry or a departure the silent save of the place; for any other none. */
  lemma LineSubmits(cfg: Config, s: ServerState, ref: SessionRef, line: string)
    requires SessionMatches(s, ref)
    ensures Submits(s, HandleLine(cfg, s, ref, line),
                    JobsFor(s.world, s.nextRequestId, ref, LineOp(ref, line), AskedBy(line)))
  {
    match Parse(line)
    case Error(e) =>
    case Ok(r) =>
      LineCallsFor(ref, line, r, s.nextRequestId);
      LineAsks(line, r);
      RequestSubmits(cfg, s, ref, r);
  }
}

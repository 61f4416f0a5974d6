/** Handlers only ever append to the job queue; every job they append carries the next request id,
    the position saves among them are the ones recorded for their connections, and the requests among
    them are the ones announced to theirs. */
module ServerJobs {
  import opened Decimal
  import W = World
  import opened World
  import opened Protocol
  import F = Framing
  import opened Server
  import opened ServerCore
  import opened ServerSteps
  import opened ServerClosing
  import opened ServerSends
  import opened ServerLines
  import opened ServerRecv
  import opened ServerReplies
  import opened ServerInvariant
  import opened ServerHandlers
  import opened ServerOutbound

  function Tickets(jobs: seq<DbJob>): seq<Ticket> {
    seq(|jobs|, i requires 0 <= i < |jobs| => jobs[i].ticket)
  }

  // The position saves of one connection among some jobs.
  function PositionSaves(jobs: seq<DbJob>, q: SessionRef): seq<DbJob> {
    if jobs == [] then []
    else
      var last := jobs[|jobs| - 1];
      PositionSaves(jobs[..|jobs| - 1], q) + if last.operation.SavePosition? && last.ticket.ref == q then [last] else []
  }

  lemma {:induction false} PositionSavesConcat(a: seq<DbJob>, b: seq<DbJob>, q: SessionRef)
    ensures PositionSaves(a + b, q) == PositionSaves(a, q) + PositionSaves(b, q)
  {
    if b == [] {
      assert a + b == a;
    } else {
      PositionSavesConcat(a, b[..|b| - 1], q);
      assert (a + b)[..|a + b| - 1] == a + b[..|b| - 1];
    }
  }

  // A request as a client hears of it.
  datatype Announcement = Announcement(id: nat, name: string)

  // The requests of one connection among some jobs.
  function RequestsOf(jobs: seq<DbJob>, q: SessionRef): seq<Announcement> {
    if jobs == [] then []
    else
      var last := jobs[|jobs| - 1];
      RequestsOf(jobs[..|jobs| - 1], q) +
        if last.ticket.notify && last.ticket.ref == q then [Announcement(last.ticket.id, last.name)] else []
  }

  lemma {:induction false} RequestsOfConcat(a: seq<DbJob>, b: seq<DbJob>, q: SessionRef)
    ensures RequestsOf(a + b, q) == RequestsOf(a, q) + RequestsOf(b, q)
  {
    if b == [] {
      assert a + b == a;
    } else {
      RequestsOfConcat(a, b[..|b| - 1], q);
      assert (a + b)[..|a + b| - 1] == a + b[..|b| - 1];
    }
  }

  // The requests that some queued replies announce.
  function Announced(queued: seq<Reply>): seq<Announcement> {
    if queued == [] then []
    else
      Announced(queued[..|queued| - 1]) +
        match queued[|queued| - 1]
        case Pending(id, name) => [Announcement(id, name)]
        case _ => []
  }

  lemma AnnouncedAppend(queued: seq<Reply>, reply: Reply)
    ensures Announced(queued + [reply]) ==
            Announced(queued) + if reply.Pending? then [Announcement(reply.id, reply.name)] else []
  {
    assert (queued + [reply])[..|queued|] == queued;
  }

  // The jobs that a connection's own history knows of: its position saves, and its requests as announced.
  datatype Record = Record(saves: seq<DbJob>, requests: seq<Announcement>)

  function RecordIn(hist: Histories, q: SessionRef): Record {
    if q in hist then Record(hist[q].saves, Announced(hist[q].queued)) else Record([], [])
  }

  function RecordOf(jobs: seq<DbJob>, q: SessionRef): Record {
    Record(PositionSaves(jobs, q), RequestsOf(jobs, q))
  }

  function Plus(a: Record, b: Record): Record {
    Record(a.saves + b.saves, a.requests + b.requests)
  }

  // What a client is told of a request: done or failed, and a line about it.
  datatype Verdict = Verdict(id: nat, ok: bool, line: string)

  function Verdicts(queued: seq<Reply>): seq<Verdict> {
    if queued == [] then []
    else
      Verdicts(queued[..|queued| - 1]) +
        match queued[|queued| - 1]
        case Answer(id, ok, line) => [Verdict(id, ok, line)]
        case _ => []
  }

  lemma VerdictsAppend(queued: seq<Reply>, reply: Reply)
    ensures Verdicts(queued + [reply]) ==
            Verdicts(queued) + if reply.Answer? then [Verdict(reply.id, reply.ok, reply.line)] else []
  {
    assert (queued + [reply])[..|queued|] == queued;
  }

  function VerdictsIn(hist: Histories, q: SessionRef): seq<Verdict> {
    if q in hist then Verdicts(hist[q].queued) else []
  }

  ghost predicate SameVerdicts(a: Histories, b: Histories) {
    forall q :: VerdictsIn(b, q) == VerdictsIn(a, q)
  }

  ghost predicate SameRecords(a: Histories, b: Histories) {
    SameVerdicts(a, b) && forall q :: RecordIn(b, q) == RecordIn(a, q)
  }

  ghost predicate MoreRecords(a: Histories, b: Histories, jobs: seq<DbJob>) {
    forall q :: RecordIn(b, q) == Plus(RecordIn(a, q), RecordOf(jobs, q))
  }

  predicate NumberedFrom(jobs: seq<DbJob>, id: nat) {
    forall i :: 0 <= i < |jobs| ==> jobs[i].ticket.id == id + i
  }

  /** What a worker may rely on: a job of a client is an accepted request for its operation, and any
      other job is a save of a position. */
  ghost predicate WellFormed(job: DbJob) {
    if job.ticket.notify then
      OperationNamed(job.name) == Some(job.operation) && exists c :: ValidRequest(Request(c, job.name, job.args))
    else job.operation == SavePosition && |job.args| == 4
  }

  ghost predicate AllWellFormed(jobs: seq<DbJob>) {
    forall i :: 0 <= i < |jobs| ==> WellFormed(jobs[i])
  }

  // From one state to the other some jobs were appended: well-formed, numbered on from the next request id,
  // their tickets outstanding, their position saves recorded and their requests announced; nothing was
  // answered.
  ghost predicate Grown(s: ServerState, r: ServerState) {
    && |s.jobs| <= |r.jobs| && r.jobs[..|s.jobs|] == s.jobs
    && GrownBy(s, r, r.jobs[|s.jobs|..])
  }

  ghost predicate GrownBy(s: ServerState, r: ServerState, more: seq<DbJob>) {
    && multiset(r.outstanding) == multiset(s.outstanding) + multiset(Tickets(more))
    && r.nextRequestId == s.nextRequestId + |more| && NumberedFrom(more, s.nextRequestId)
    && AllWellFormed(more)
    && MoreRecords(s.hist, r.hist, more) && SameVerdicts(s.hist, r.hist)
  }

  lemma TicketsConcat(a: seq<DbJob>, b: seq<DbJob>)
    ensures Tickets(a + b) == Tickets(a) + Tickets(b)
  {
  }

  lemma NotGrown(s: ServerState, r: ServerState)
    requires r.jobs == s.jobs && r.outstanding == s.outstanding && r.nextRequestId == s.nextRequestId
    requires SameRecords(s.hist, r.hist)
    ensures Grown(s, r)
  {
    NothingToAdd(s.hist, r.hist);
    assert r.jobs[|s.jobs|..] == [];
    assert Tickets([]) == [];
  }

  lemma MoreAndMoreRecords(a: Histories, b: Histories, c: Histories, x: seq<DbJob>, y: seq<DbJob>)
    requires MoreRecords(a, b, x) && MoreRecords(b, c, y)
    ensures MoreRecords(a, c, x + y)
  {
    forall q ensures RecordIn(c, q) == Plus(RecordIn(a, q), RecordOf(x + y, q)) {
      PositionSavesConcat(x, y, q);
      RequestsOfConcat(x, y, q);
      PlusAssociates(RecordIn(a, q), RecordOf(x, q), RecordOf(y, q));
    }
  }

  lemma PlusAssociates(a: Record, b: Record, c: Record)
    ensures Plus(Plus(a, b), c) == Plus(a, Plus(b, c))
  {
    F.Regroup(a.saves, b.saves, c.saves);
    F.Regroup(a.requests, b.requests, c.requests);
  }

  lemma NothingToAdd(a: Histories, b: Histories)
    requires SameRecords(a, b)
    ensures MoreRecords(a, b, [])
  {
    forall q ensures RecordIn(b, q) == Plus(RecordIn(a, q), RecordOf([], q)) {
      assert RecordOf([], q) == Record([], []);
    }
  }

  lemma NoteRecords(s: ServerState, ref: SessionRef, h: History)
    requires h.saves == HistoryOf(s, ref).saves && Announced(h.queued) == Announced(HistoryOf(s, ref).queued)
    requires Verdicts(h.queued) == Verdicts(HistoryOf(s, ref).queued)
    ensures SameRecords(s.hist, Note(s, ref, h).hist)
  {
  }

  // Queueing anything but an announcement or an answer.
  lemma QueueGrowsNothing(cfg: Config, s: ServerState, ref: SessionRef, reply: Reply)
    requires IsNeutral(reply)
    ensures var r := QueueResponse(cfg, s, ref, reply);
            && r.jobs == s.jobs && r.outstanding == s.outstanding && r.nextRequestId == s.nextRequestId
            && SameRecords(s.hist, r.hist)
  {
    if SessionMatches(s, ref) {
      NeutralRecords(s, ref, reply);
    }
  }

  lemma NeutralRecords(s: ServerState, ref: SessionRef, reply: Reply)
    requires IsNeutral(reply)
    ensures var h := HistoryOf(s, ref); SameRecords(s.hist, s.hist[ref := h.(queued := h.queued + [reply])])
  {
    var h := HistoryOf(s, ref);
    AnnouncedAppend(h.queued, reply);
    VerdictsAppend(h.queued, reply);
    NoteRecords(s, ref, h.(queued := h.queued + [reply]));
  }

  lemma QueueNotGrown(cfg: Config, s: ServerState, ref: SessionRef, reply: Reply)
    requires IsNeutral(reply)
    ensures Grown(s, QueueResponse(cfg, s, ref, reply))
  {
    QueueGrowsNothing(cfg, s, ref, reply);
    NotGrown(s, QueueResponse(cfg, s, ref, reply));
  }

  lemma {:induction false} DeliverNotGrown(cfg: Config, s: ServerState, events: seq<WorldEvent>)
    ensures Grown(s, Deliver(cfg, s, events))
  {
    if events == [] {
      NotGrown(s, s);
    } else {
      var most, last := events[..|events| - 1], events[|events| - 1];
      DeliverNotGrown(cfg, s, most);
      QueueNotGrown(cfg, Deliver(cfg, s, most), last.receiver, InWorld(last.line));
      GrownTransitive(s, Deliver(cfg, s, most), Deliver(cfg, s, events));
    }
  }

  lemma PublishNotGrown(cfg: Config, s: ServerState, outcome: Outcome)
    ensures Grown(s, Publish(cfg, s, outcome))
  {
    NotGrown(s, s.(world := outcome.world));
    DeliverNotGrown(cfg, s.(world := outcome.world), outcome.events);
    GrownTransitive(s, s.(world := outcome.world), Publish(cfg, s, outcome));
  }

  lemma GrownTransitive(a: ServerState, b: ServerState, c: ServerState)
    requires Grown(a, b) && Grown(b, c)
    ensures Grown(a, c)
  {
    var x, y := b.jobs[|a.jobs|..], c.jobs[|b.jobs|..];
    TicketsConcat(x, y);
    MoreAndMoreRecords(a.hist, b.hist, c.hist, x, y);
    assert c.jobs[|a.jobs|..] == x + y;
  }

  lemma SubmitGrows(s: ServerState, r: ServerState, job: DbJob)
    requires job.ticket !in s.outstanding && job.ticket.id == s.nextRequestId && WellFormed(job)
    requires r.jobs == s.jobs + [job] && r.outstanding == s.outstanding + {job.ticket}
    requires r.nextRequestId == s.nextRequestId + 1
    requires forall q :: RecordIn(r.hist, q) == Plus(RecordIn(s.hist, q), RecordOfOne(job, q))
    requires SameVerdicts(s.hist, r.hist)
    ensures Grown(s, r)
  {
    assert r.jobs[|s.jobs|..] == [job];
    assert Tickets([job]) == [job.ticket];
    forall q ensures RecordIn(r.hist, q) == Plus(RecordIn(s.hist, q), RecordOf([job], q)) {
      OneRecord(job, q);
    }
  }

  lemma OneRecord(job: DbJob, q: SessionRef)
    ensures RecordOf([job], q) == RecordOfOne(job, q)
  {
    assert [job][..0] == [];
    assert PositionSaves([], q) == [] && RequestsOf([], q) == [];
  }

  function RecordOfOne(job: DbJob, q: SessionRef): Record {
    Record(if job.operation.SavePosition? && job.ticket.ref == q then [job] else [],
           if job.ticket.notify && job.ticket.ref == q then [Announcement(job.ticket.id, job.name)] else [])
  }

  lemma NewTicketIsNew(cfg: Config, s: ServerState, t: Ticket)
    requires Core(cfg, s) && t.id == s.nextRequestId
    ensures t !in s.outstanding
  {
  }

  lemma SaveGrows(cfg: Config, s: ServerState, ref: SessionRef, p: Place)
    requires Core(cfg, s)
    ensures Grown(s, SubmitPositionSave(s, ref, p))
  {
    var r := SubmitPositionSave(s, ref, p);
    var job := r.jobs[|s.jobs|];
    NewTicketIsNew(cfg, s, job.ticket);
    forall q ensures RecordIn(r.hist, q) == Plus(RecordIn(s.hist, q), RecordOfOne(job, q)) {
      SaveRecords(s, ref, job, q);
    }
    SubmitGrows(s, r, job);
  }

  lemma SaveRecords(s: ServerState, ref: SessionRef, job: DbJob, q: SessionRef)
    requires job.operation == SavePosition && job.ticket.ref == ref && !job.ticket.notify
    ensures var h := HistoryOf(s, ref);
            RecordIn(Note(s, ref, h.(saves := h.saves + [job])).hist, q) ==
            Plus(RecordIn(s.hist, q), RecordOfOne(job, q))
  {
  }

  lemma DepartGrows(cfg: Config, s: ServerState, ref: SessionRef)
    requires Core(cfg, s)
    ensures Grown(s, Depart(cfg, s, ref))
  {
    var left := W.Leave(s.world, cfg.order, ref);
    PublishNotGrown(cfg, s, left);
    PublishKeepsCore(cfg, s, left);
    var s1 := Publish(cfg, s, left);
    var snapshot := SnapshotOf(s.world, ref);
    if snapshot.account != "" {
      var p := Place(snapshot.account, snapshot.character, snapshot.x, snapshot.y);
      SaveGrows(cfg, s1, ref, p);
      GrownTransitive(s, s1, SubmitPositionSave(s1, ref, p));
    }
  }

  lemma CloseGrows(cfg: Config, s: ServerState, ref: SessionRef, ending: Ending)
    requires Core(cfg, Erased(s, ref, ending)) && IsLive(s, ref) && s.sessions[ref.fd].fd == ref.fd
    requires IndexValid(s.world) && ValidOrder(cfg.order)
    ensures Grown(s, CloseSession(cfg, s, ref.fd, ending))
  {
    CloseIsErase(cfg, s, ref, ending);
    var e := Erased(s, ref, ending);
    DepartGrows(cfg, e, ref);
    ErasedNotGrown(s, ref, ending);
    GrownTransitive(s, e, Depart(cfg, e, ref));
  }

  lemma ErasedNotGrown(s: ServerState, ref: SessionRef, ending: Ending)
    ensures Grown(s, Erased(s, ref, ending))
  {
    NoteRecords(s, ref, HistoryOf(s, ref).(ending := ending));
    NotGrown(s, Erased(s, ref, ending));
  }

  lemma QuitGrows(cfg: Config, s: ServerState, ref: SessionRef)
    requires Core(cfg, s) && IsLive(s, ref)
    ensures Grown(s, HandleQuit(cfg, s, ref))
  {
    DepartGrows(cfg, s, ref);
    var departed := Depart(cfg, s, ref);
    QueueGrowsNothing(cfg, departed, ref, Bye);
    NotGrown(departed, HandleQuit(cfg, s, ref));
    GrownTransitive(s, departed, HandleQuit(cfg, s, ref));
  }

  lemma InTheWorldNotGrown(cfg: Config, s: ServerState, op: Op)
    requires Core(cfg, s) && IsLive(s, op.ref)
    ensures Grown(s, InTheWorld(cfg, s, op))
  {
    OpenIsPrefix(cfg, s, op.ref);
    var s1 := Settle(s, op.ref, SettledAfter(s, op));
    NoteRecords(s, op.ref, s1.hist[op.ref]);
    NotGrown(s, s1);
    PublishNotGrown(cfg, s1, W.Apply(s.world, cfg.order, op));
    GrownTransitive(s, s1, InTheWorld(cfg, s, op));
  }

  lemma WorldGrows(cfg: Config, s: ServerState, op: Op)
    requires Core(cfg, s) && IsLive(s, op.ref)
    ensures Grown(s, HandleWorld(cfg, s, op))
  {
    InTheWorldNotGrown(cfg, s, op);
    var s1 := InTheWorld(cfg, s, op);
    if op.DoEnter? {
      InTheWorldEffect(cfg, s, op);
      var p := Place(op.account, op.character, op.x, op.y);
      SaveGrows(cfg, s1, op.ref, p);
      GrownTransitive(s, s1, SubmitPositionSave(s1, op.ref, p));
    }
  }

  lemma DatabaseGrows(cfg: Config, s: ServerState, ref: SessionRef, r: Request)
    requires Core(cfg, s) && IsLive(s, ref) && ValidRequest(r)
    ensures Grown(s, HandleDatabase(cfg, s, ref, r))
  {
    match OperationFor(r.command)
    case None =>
      QueueNotGrown(cfg, s, ref, Unsupported);
    case Some(operation) =>
      RequestIsAnnounce(cfg, s, ref, operation, r);
      OpenIsPrefix(cfg, s, ref);
      var job := DbJob(Ticket(ref, s.nextRequestId, true), operation, r.name, r.args);
      NewTicketIsNew(cfg, s, job.ticket);
      RequestGrows(s, RequestJob(cfg, s, ref, operation, r), ref, operation, r);
  }

  lemma RequestGrows(s: ServerState, t: ServerState, ref: SessionRef, operation: DbOperation, r: Request)
    requires ValidRequest(r) && OperationFor(r.command) == Some(operation)
    requires Ticket(ref, s.nextRequestId, true) !in s.outstanding
    requires t.jobs == s.jobs + [DbJob(Ticket(ref, s.nextRequestId, true), operation, r.name, r.args)]
    requires t.outstanding == s.outstanding + {Ticket(ref, s.nextRequestId, true)}
    requires t.nextRequestId == s.nextRequestId + 1
    requires ref in s.hist && t.hist == WithReply(s.hist, ref, Pending(s.nextRequestId, r.name))
    ensures Grown(s, t)
  {
    var job := DbJob(Ticket(ref, s.nextRequestId, true), operation, r.name, r.args);
    assert Request(r.command, job.name, job.args) == r;
    OperationFits(r);
    assert WellFormed(job);
    forall q ensures RecordIn(t.hist, q) == Plus(RecordIn(s.hist, q), RecordOfOne(job, q)) {
      AnnouncedAppend(s.hist[ref].queued, Pending(s.nextRequestId, r.name));
      assert job.operation != SavePosition;
    }
    VerdictsAppend(s.hist[ref].queued, Pending(s.nextRequestId, r.name));
    SubmitGrows(s, t, job);
  }

  lemma HandleGrows(cfg: Config, s: ServerState, ref: SessionRef, line: string)
    requires Core(cfg, s) && IsLive(s, ref)
    ensures Grown(s, Handle(cfg, s, ref, line))
  {
    match Parse(line)
    case Error(e) =>
      QueueNotGrown(cfg, s, ref, Refused(e));
    case Ok(r) =>
      ParseAccepts(line, r);
      if r.command == Quit {
        QuitGrows(cfg, s, ref);
      } else {
        OpRef(ref, r);
        match WorldRequestOf(ref, r)
        case OutOfRange => NotGrown(s, s.(terminated := true));
        case InRange(op) => WorldGrows(cfg, s, op);
        case NoWorld => DatabaseGrows(cfg, s, ref, r);
      }
  }

  lemma NextLineGrows(cfg: Config, s: ServerState, ref: SessionRef, n: nat)
    requires Handling(cfg, s, ref) && n < |s.sessions[ref.fd].input|
    ensures Grown(s, NextLine(cfg, s, ref, n))
  {
    CutLineKeepsCore(cfg, s, ref, n);
    var line := s.sessions[ref.fd].input[..n];
    HandleGrows(cfg, CutLine(s, ref, n), ref, line);
    var r := Handle(cfg, CutLine(s, ref, n), ref, line);
    NoteRecords(r, ref, HistoryOf(r, ref).(lines := HistoryOf(r, ref).lines + [line]));
    SameJobsGrow(s, CutLine(s, ref, n), r, NextLine(cfg, s, ref, n));
  }

  lemma SameJobsGrow(s: ServerState, s1: ServerState, r1: ServerState, r: ServerState)
    requires Grown(s1, r1)
    requires s1.jobs == s.jobs && s1.outstanding == s.outstanding && s1.nextRequestId == s.nextRequestId
    requires r1.jobs == r.jobs && r1.outstanding == r.outstanding && r1.nextRequestId == r.nextRequestId
    requires SameRecords(s.hist, s1.hist) && SameRecords(r1.hist, r.hist)
    ensures Grown(s, r)
  {
    NotGrown(s, s1);
    NotGrown(r1, r);
    GrownTransitive(s, s1, r1);
    GrownTransitive(s, r1, r);
  }

  lemma {:induction false} ProcessLinesGrows(cfg: Config, s: ServerState, ref: SessionRef)
    requires Handling(cfg, s, ref) && ValidOrder(cfg.order) && !s.terminated && !s.sessions[ref.fd].closeAfterFlush
    ensures Grown(s, ProcessLines(cfg, s, ref))
    decreases |s.sessions[ref.fd].input|
  {
    match F.FindNewline(s.sessions[ref.fd].input)
    case None => NotGrown(s, s);
    case Some(n) =>
      NextLineGrows(cfg, s, ref, n);
      NextLineAround(cfg, s, ref, n);
      var s1 := NextLine(cfg, s, ref, n);
      if !(s1.terminated || s1.sessions[ref.fd].closeAfterFlush) {
        ProcessLinesGrows(cfg, s1, ref);
        GrownTransitive(s, s1, ProcessLines(cfg, s1, ref));
      }
  }

  lemma FinishGrows(cfg: Config, s: ServerState, ref: SessionRef)
    requires Core(cfg, s) && IsLive(s, ref)
    ensures Grown(s, FinishRecv(cfg, s, ref))
  {
    if |s.sessions[ref.fd].input| > cfg.maxLine {
      RefusalGrowsNothing(cfg, s, ref);
    } else {
      NothingToFlush(cfg, s, ref.fd);
      NotGrown(s, FinishRecv(cfg, s, ref));
    }
  }

  lemma RefusalGrowsNothing(cfg: Config, s: ServerState, ref: SessionRef)
    requires Core(cfg, s) && IsLive(s, ref)
    ensures var q := QueueResponse(cfg, s, ref, LineTooLong);
            ref.fd in q.sessions && Grown(s, MaybeCloseAfterFlush(cfg, CloseAfterFlush(q, ref), ref.fd))
  {
    QueueKeepsCore(cfg, s, ref, LineTooLong);
    QueuedIsInFlight(cfg, s, ref, LineTooLong);
    QueueGrowsNothing(cfg, s, ref, LineTooLong);
    var q := QueueResponse(cfg, s, ref, LineTooLong);
    CloseAfterFlushKeepsCore(cfg, q, ref);
    NothingToFlush(cfg, CloseAfterFlush(q, ref), ref.fd);
    NotGrown(s, CloseAfterFlush(q, ref));
  }

  lemma OnRecvGrows(cfg: Config, s: ServerState, ref: SessionRef, chunk: string)
    requires Inv(cfg, s) && RecvToken(ref) in s.tokens && ValidOrder(cfg.order)
    ensures Grown(s, OnRecv(cfg, s, ref, chunk))
  {
    ConsumeRecv(cfg, s, ref);
    var s0 := Consume(s, RecvToken(ref));
    if !IsLive(s, ref) {
      NotGrown(s, s0);
    } else if chunk == "" {
      OpenIsPrefix(cfg, s0, ref);
      OwnReceive(s0, ref, ref.fd);
      var h := s0.hist[ref].(ending := Dropped);
      WithoutKeepsCore(cfg, s0, ref, s0.tokens, h);
      assert Erased(s0, ref, Dropped) == Without(s0, ref, s0.tokens, h);
      assert SessionKnown(s0.sessions, s0.hist, ref.fd);
      CloseGrows(cfg, s0, ref, Dropped);
      SameJobsGrow(s, s0, CloseSession(cfg, s0, ref.fd, Dropped), OnRecv(cfg, s, ref, chunk));
    } else {
      ChunkGrows(cfg, s, s0, ref, chunk);
    }
  }

  lemma ChunkGrows(cfg: Config, s: ServerState, s0: ServerState, ref: SessionRef, chunk: string)
    requires Settled(cfg, s0) && !s0.terminated && IsLive(s0, ref) && !s0.sessions[ref.fd].closeAfterFlush
    requires s0 == Consume(s, RecvToken(ref)) && chunk != "" && ValidOrder(cfg.order)
    ensures Grown(s, OnRecv(cfg, s, ref, chunk))
  {
    OpenIsPrefix(cfg, s0, ref);
    var s1 := Append(s0, ref, chunk);
    AppendIs(cfg, s0, ref, chunk);
    AppendKeeps(cfg, s0, ref, chunk);
    ProcessLinesGrows(cfg, s1, ref);
    ProcessLinesAround(cfg, s1, ref);
    var s2 := ProcessLines(cfg, s1, ref);
    NoteRecords(s0, ref, HistoryOf(s0, ref).(chunks := HistoryOf(s0, ref).chunks + [chunk]));
    SameJobsGrow(s, s1, s2, s2);
    if !s2.terminated {
      FinishGrows(cfg, s2, ref);
      GrownTransitive(s, s2, FinishRecv(cfg, s2, ref));
    }
  }

  lemma OnAcceptGrows(cfg: Config, s: ServerState, fd: Option<int>)
    requires Inv(cfg, s) && (fd.Some? ==> fd.value !in s.openFds)
    ensures Grown(s, OnAccept(cfg, s, fd))
  {
    match fd
    case None => NotGrown(s, OnAccept(cfg, s, None));
    case Some(n) =>
      AcceptIsConnect(cfg, s, n);
      AcceptIsFresh(cfg, s, n);
      var ref := SessionRef(n, s.nextGeneration);
      var c := Connected(Consume(s, AcceptToken), n);
      NoteRecords(s, ref, c.hist[ref]);
      QueueGrowsNothing(cfg, c, ref, Hello);
      NotGrown(s, OnAccept(cfg, s, fd));
  }

  lemma OnSentGrows(cfg: Config, s: ServerState, ref: SessionRef, payload: string, n: nat)
    requires Inv(cfg, s) && SendToken(ref, payload) in s.tokens && n <= |payload| && ValidOrder(cfg.order)
    ensures Grown(s, OnSent(cfg, s, ref, payload, n))
  {
    if !IsLive(s, ref) {
      NotGrown(s, OnSent(cfg, s, ref, payload, n));
    } else if n == 0 {
      SendLostErased(cfg, s, ref, payload);
      SendIsFront(cfg, s, ref, payload);
      FailureCloses(cfg, s, ref, payload);
      var r := SendLost(s, ref, payload);
      CloseGrows(cfg, r, ref, Dropped);
      SameJobsGrow(s, r, CloseSession(cfg, r, ref.fd, Dropped), OnSent(cfg, s, ref, payload, n));
    } else {
      ProgressGrows(cfg, s, ref, payload, n);
    }
  }

  lemma ResumedRecords(s: ServerState, ref: SessionRef, n: nat)
    requires IsLive(s, ref) && ref in s.hist
    requires s.sessions[ref.fd].outbox != [] && n <= |s.sessions[ref.fd].outbox[0]|
    ensures SameRecords(s.hist, Resumed(s, ref, n).hist)
  {
    NoteRecords(s, ref, Resumed(s, ref, n).hist[ref]);
  }

  lemma ProgressGrows(cfg: Config, s: ServerState, ref: SessionRef, payload: string, n: nat)
    requires Inv(cfg, s) && IsLive(s, ref) && SendToken(ref, payload) in s.tokens && 0 < n <= |payload|
    requires ValidOrder(cfg.order)
    ensures Grown(s, OnSent(cfg, s, ref, payload, n))
  {
    OnSentIsAcknowledge(cfg, s, ref, payload, n);
    PostSendResumes(cfg, s, ref, n);
    SendIsFront(cfg, s, ref, payload);
    var r := Resumed(s, ref, n);
    if r.sessions[ref.fd].closeAfterFlush && r.sessions[ref.fd].outbox == [] {
      FlushedErased(cfg, s, ref, payload, n);
      CloseGrows(cfg, r, ref, Flushed);
      ResumedRecords(s, ref, n);
      SameJobsGrow(s, r, CloseSession(cfg, r, ref.fd, Flushed), OnSent(cfg, s, ref, payload, n));
    } else {
      ResumedRecords(s, ref, n);
      NotGrown(s, r);
    }
  }

  // The verdict that a completion queues for a connection.
  function VerdictOf(s: ServerState, c: DbCompletion, q: SessionRef): seq<Verdict> {
    if c.ticket.notify && c.ticket.ref == q && IsLive(s, q) then [Verdict(c.ticket.id, c.ok, c.line)] else []
  }

  lemma OnCompletionAnswers(cfg: Config, s: ServerState, c: DbCompletion)
    requires Inv(cfg, s) && c.ticket in s.outstanding
    ensures var r := OnCompletion(cfg, s, c);
            && r.nextRequestId == s.nextRequestId && MoreRecords(s.hist, r.hist, [])
            && forall q :: VerdictsIn(r.hist, q) == VerdictsIn(s.hist, q) + VerdictOf(s, c, q)
  {
    if c.ticket.notify && IsLive(s, c.ticket.ref) {
      HeardAnswers(cfg, s, c);
    } else {
      UnheardAnswers(cfg, s, c);
    }
  }

  lemma UnheardAnswers(cfg: Config, s: ServerState, c: DbCompletion)
    requires !(c.ticket.notify && IsLive(s, c.ticket.ref))
    ensures var r := OnCompletion(cfg, s, c);
            && r.nextRequestId == s.nextRequestId && MoreRecords(s.hist, r.hist, [])
            && forall q :: VerdictsIn(r.hist, q) == VerdictsIn(s.hist, q) + VerdictOf(s, c, q)
  {
    NothingToAdd(s.hist, s.hist);
    assert forall q :: VerdictOf(s, c, q) == [];
  }

  lemma HeardAnswers(cfg: Config, s: ServerState, c: DbCompletion)
    requires Core(cfg, s) && c.ticket in s.outstanding && c.ticket.notify && IsLive(s, c.ticket.ref)
    ensures var r := OnCompletion(cfg, s, c);
            && r.nextRequestId == s.nextRequestId && MoreRecords(s.hist, r.hist, [])
            && forall q :: VerdictsIn(r.hist, q) == VerdictsIn(s.hist, q) + VerdictOf(s, c, q)
  {
    AnsweredKeepsCore(cfg, s, c);
    OpenIsPrefix(cfg, s, c.ticket.ref);
    AnswerRecords(s.hist, c.ticket.ref, Answer(c.ticket.id, c.ok, c.line));
  }

  lemma AnswerRecords(hist: Histories, ref: SessionRef, reply: Reply)
    requires ref in hist && reply.Answer?
    ensures var h := WithReply(hist, ref, reply);
            && MoreRecords(hist, h, [])
            && forall q :: VerdictsIn(h, q) ==
                           VerdictsIn(hist, q) + if q == ref then [Verdict(reply.id, reply.ok, reply.line)] else []
  {
    AnnouncedAppend(hist[ref].queued, reply);
    VerdictsAppend(hist[ref].queued, reply);
    var h := WithReply(hist, ref, reply);
    forall q ensures RecordIn(h, q) == Plus(RecordIn(hist, q), RecordOf([], q)) {
      assert RecordOf([], q) == Record([], []);
    }
  }
}

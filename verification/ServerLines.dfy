/** What handling one line does to everything but the sending side. */
module ServerLines {
  import opened Decimal
  import W = World
  import opened World
  import Views
  import opened Protocol
  import opened Server
  import opened ServerCore
  import opened ServerSteps
  import opened ServerClosing

  // ---------- Queueing is quiet ----------

  // Equal but for outboxes, sends in flight and queued replies.
  ghost predicate Quiet(s: ServerState, r: ServerState) {
    && SameSessions(s, r)
    && QuietHistories(s.hist, r.hist)
    && SameOtherTokens(s.tokens, r.tokens)
    && r.openFds == s.openFds && r.nextGeneration == s.nextGeneration && r.world == s.world
    && r.terminated == s.terminated && r.jobs == s.jobs
    && r.nextRequestId == s.nextRequestId && r.outstanding == s.outstanding
  }

  ghost predicate SameOtherTokens(a: multiset<Token>, b: multiset<Token>) {
    forall t: Token :: !t.SendToken? ==> a[t] == b[t]
  }

  predicate QuietHistory(a: History, b: History) {
    && a.chunks == b.chunks && a.lines == b.lines && a.sent == b.sent
    && a.saves == b.saves && a.settled == b.settled && a.ending == b.ending
  }

  ghost predicate QuietHistories(a: Histories, b: Histories) {
    a.Keys == b.Keys && forall q :: q in a ==> QuietHistory(a[q], b[q])
  }

  lemma EnqueueIsQuiet(cfg: Config, s: ServerState, ref: SessionRef, reply: Reply)
    requires IsLive(s, ref) && ref in s.hist
    ensures Quiet(s, Enqueued(cfg, s, ref, reply))
  {
    var r := Enqueued(cfg, s, ref, reply);
    assert r.sessions.Keys == s.sessions.Keys;
    assert r.hist.Keys == s.hist.Keys;
  }

  lemma QueueIsQuiet(cfg: Config, s: ServerState, ref: SessionRef, reply: Reply)
    requires Core(cfg, s)
    ensures Quiet(s, QueueResponse(cfg, s, ref, reply))
  {
    QueueIsEnqueue(cfg, s, ref, reply);
    if IsLive(s, ref) {
      OpenIsPrefix(cfg, s, ref);
      EnqueueIsQuiet(cfg, s, ref, reply);
    }
  }

  lemma QuietTransitive(a: ServerState, b: ServerState, c: ServerState)
    requires Quiet(a, b) && Quiet(b, c)
    ensures Quiet(a, c)
  {
    forall fd | fd in a.sessions ensures SameButSending(a.sessions[fd], c.sessions[fd]) {
      assert SameButSending(a.sessions[fd], b.sessions[fd]) && SameButSending(b.sessions[fd], c.sessions[fd]);
    }
    forall q | q in a.hist ensures QuietHistory(a.hist[q], c.hist[q]) {
      assert QuietHistory(a.hist[q], b.hist[q]) && QuietHistory(b.hist[q], c.hist[q]);
    }
  }

  lemma {:induction false} DeliverIsQuiet(cfg: Config, s: ServerState, events: seq<WorldEvent>)
    requires Core(cfg, s)
    ensures Quiet(s, Deliver(cfg, s, events))
  {
    if events == [] {
    } else {
      var most, last := events[..|events| - 1], events[|events| - 1];
      DeliverIsQuiet(cfg, s, most);
      DeliverKeepsCore(cfg, s, most);
      QueueIsQuiet(cfg, Deliver(cfg, s, most), last.receiver, InWorld(last.line));
      QuietTransitive(s, Deliver(cfg, s, most), Deliver(cfg, s, events));
    }
  }

  lemma PublishIsQuiet(cfg: Config, s: ServerState, outcome: Outcome)
    requires Core(cfg, s)
    ensures Quiet(s.(world := outcome.world), Publish(cfg, s, outcome))
  {
    QuietKeepsCore(cfg, s, s.(world := outcome.world));
    DeliverIsQuiet(cfg, s.(world := outcome.world), outcome.events);
  }

  // ---------- What a line is about ----------

  // The world operation a line stands for.
  function LineOp(ref: SessionRef, line: string): Option<Op> {
    match Parse(line)
    case Error(_) => None
    case Ok(r) =>
      ParseAccepts(line, r);
      if r.command == Quit then Some(DoLeave(ref))
      else match WorldRequestOf(ref, r)
        case InRange(op) => Some(op)
        case _ => None
  }

  predicate IsOutOfRange(line: string) {
    match Parse(line)
    case Error(_) => false
    case Ok(r) =>
      ParseAccepts(line, r);
      WorldRequestOf(SessionRef(0, 0), r) == OutOfRange
  }

  function WorldAfter(w: WorldState, order: Order, op: Option<Op>): WorldState {
    match op
    case None => w
    case Some(o) => W.Apply(w, order, o).world
  }

  // The positions that an operation has saved.
  function PlacesSaved(w: WorldState, op: Option<Op>): seq<Place> {
    match op
    case Some(DoEnter(_, account, character, x, y)) => [Place(account, character, x, y)]
    case Some(DoLeave(ref)) =>
      var snapshot := SnapshotOf(w, ref);
      if snapshot.account == "" then []
      else [Place(snapshot.account, snapshot.character, snapshot.x, snapshot.y)]
    case _ => []
  }

  predicate IsSaveOf(job: DbJob, ref: SessionRef, p: Place) {
    job.ticket.ref == ref && !job.ticket.notify && job.operation == SavePosition && job.args == SaveArgs(p)
  }

  // The jobs are the saves of the places, in order.
  ghost predicate AreSavesOf(jobs: seq<DbJob>, ref: SessionRef, places: seq<Place>) {
    |jobs| == |places| && forall i :: 0 <= i < |jobs| ==> IsSaveOf(jobs[i], ref, places[i])
  }

  // What a step for one connection did to the histories: its own saves grew by those of `places`,
  // and its flag may have changed; other connections only had lines queued.
  ghost predicate SavedFor(a: Histories, b: Histories, ref: SessionRef, places: seq<Place>, settled: bool) {
    && a.Keys == b.Keys && ref in a
    && (forall q :: q in a && q != ref ==> QuietHistory(a[q], b[q]))
    && b[ref].chunks == a[ref].chunks && b[ref].lines == a[ref].lines && b[ref].sent == a[ref].sent
    && b[ref].ending == a[ref].ending && b[ref].settled == settled
    && |b[ref].saves| == |a[ref].saves| + |places|
    && b[ref].saves[..|a[ref].saves|] == a[ref].saves
    && AreSavesOf(b[ref].saves[|a[ref].saves|..], ref, places)
  }

  // What handling does to the state, apart from sends and from the ids and jobs of requests.
  ghost predicate Effect(
    s: ServerState, r: ServerState, ref: SessionRef, world: WorldState, places: seq<Place>, settled: bool,
    closing: bool)
  {
    && r.sessions.Keys == s.sessions.Keys && ref.fd in s.sessions
    && (forall fd :: fd in s.sessions ==>
          && r.sessions[fd].fd == s.sessions[fd].fd && r.sessions[fd].generation == s.sessions[fd].generation
          && r.sessions[fd].input == s.sessions[fd].input
          && r.sessions[fd].closeAfterFlush == (s.sessions[fd].closeAfterFlush || (fd == ref.fd && closing)))
    && SameOtherTokens(s.tokens, r.tokens)
    && r.openFds == s.openFds && r.nextGeneration == s.nextGeneration
    && r.world == world
    && SavedFor(s.hist, r.hist, ref, places, settled)
  }

  lemma SaveEffect(s: ServerState, ref: SessionRef, p: Place)
    requires ref in s.hist
    ensures var r := SubmitPositionSave(s, ref, p);
            && r.sessions == s.sessions && r.tokens == s.tokens && r.world == s.world
            && r.openFds == s.openFds && r.nextGeneration == s.nextGeneration && r.terminated == s.terminated
            && SavedFor(s.hist, r.hist, ref, [p], s.hist[ref].settled)
  {
    var r := SubmitPositionSave(s, ref, p);
    var n := |s.hist[ref].saves|;
    assert r.hist[ref].saves[..n] == s.hist[ref].saves;
    assert r.hist[ref].saves[n..] == [r.hist[ref].saves[n]];
  }

  lemma DepartEffect(cfg: Config, s: ServerState, ref: SessionRef)
    requires Core(cfg, s) && ref in s.hist
    ensures var r := Depart(cfg, s, ref);
            && SameSessions(s, r) && SameOtherTokens(s.tokens, r.tokens)
            && r.openFds == s.openFds && r.nextGeneration == s.nextGeneration && r.terminated == s.terminated
            && r.world == W.Leave(s.world, cfg.order, ref).world
            && SavedFor(s.hist, r.hist, ref, PlacesSaved(s.world, Some(DoLeave(ref))), s.hist[ref].settled)
  {
    var left := W.Leave(s.world, cfg.order, ref);
    PublishIsQuiet(cfg, s, left);
    DepartedEffect(s, Publish(cfg, s, left), ref);
  }

  lemma DepartedEffect(s: ServerState, s1: ServerState, ref: SessionRef)
    requires SameSessions(s, s1) && QuietHistories(s.hist, s1.hist) && ref in s.hist
    ensures var r := DepartWith(s1, ref, SnapshotOf(s.world, ref));
            && SameSessions(s, r) && r.tokens == s1.tokens && r.openFds == s1.openFds
            && r.nextGeneration == s1.nextGeneration && r.terminated == s1.terminated && r.world == s1.world
            && SavedFor(s.hist, r.hist, ref, PlacesSaved(s.world, Some(DoLeave(ref))), s.hist[ref].settled)
  {
    DepartWithEffect(s, s1, ref, SnapshotOf(s.world, ref));
  }

  lemma DepartWithEffect(s: ServerState, s1: ServerState, ref: SessionRef, snapshot: PlayerSnapshot)
    requires QuietHistories(s.hist, s1.hist) && ref in s.hist
    ensures var r := DepartWith(s1, ref, snapshot);
            && r.sessions == s1.sessions && r.tokens == s1.tokens && r.openFds == s1.openFds
            && r.nextGeneration == s1.nextGeneration && r.terminated == s1.terminated && r.world == s1.world
            && SavedFor(s.hist, r.hist, ref,
                        if snapshot.account == "" then []
                        else [Place(snapshot.account, snapshot.character, snapshot.x, snapshot.y)],
                        s.hist[ref].settled)
  {
    assert QuietHistory(s.hist[ref], s1.hist[ref]);
    if snapshot.account == "" {
      NothingSaved(s.hist, s1.hist, ref);
    } else {
      var p := Place(snapshot.account, snapshot.character, snapshot.x, snapshot.y);
      SaveEffect(s1, ref, p);
      QuietThenSaved(s.hist, s1.hist, SubmitPositionSave(s1, ref, p).hist, ref, [p]);
    }
  }

  lemma NothingSaved(a: Histories, b: Histories, ref: SessionRef)
    requires QuietHistories(a, b) && ref in a
    ensures SavedFor(a, b, ref, [], a[ref].settled)
  {
    assert QuietHistory(a[ref], b[ref]);
  }

  lemma QuietThenSaved(a: Histories, b: Histories, c: Histories, ref: SessionRef, places: seq<Place>)
    requires QuietHistories(a, b) && ref in a && SavedFor(b, c, ref, places, b[ref].settled)
    ensures SavedFor(a, c, ref, places, a[ref].settled)
  {
    assert QuietHistory(a[ref], b[ref]);
    forall q | q in a && q != ref ensures QuietHistory(a[q], c[q]) {
      assert QuietHistory(a[q], b[q]) && QuietHistory(b[q], c[q]);
    }
  }

  lemma SavedThenQuiet(a: Histories, b: Histories, c: Histories, ref: SessionRef, places: seq<Place>, settled: bool)
    requires SavedFor(a, b, ref, places, settled) && QuietHistories(b, c)
    ensures SavedFor(a, c, ref, places, settled)
  {
    assert QuietHistory(b[ref], c[ref]);
    forall q | q in a && q != ref ensures QuietHistory(a[q], c[q]) {
      assert QuietHistory(a[q], b[q]) && QuietHistory(b[q], c[q]);
    }
  }

  // ---------- Handlers ----------

  lemma QuitEffect(cfg: Config, s: ServerState, ref: SessionRef)
    requires Core(cfg, s) && IsLive(s, ref)
    ensures ref in s.hist
    ensures Core(cfg, HandleQuit(cfg, s, ref))
    ensures Effect(s, HandleQuit(cfg, s, ref), ref, W.Leave(s.world, cfg.order, ref).world,
                   PlacesSaved(s.world, Some(DoLeave(ref))), s.hist[ref].settled, true)
    ensures HandleQuit(cfg, s, ref).terminated == s.terminated
  {
    OpenIsPrefix(cfg, s, ref);
    DepartEffect(cfg, s, ref);
    DepartKeepsCore(cfg, s, ref);
    var departed := Depart(cfg, s, ref);
    assert SameButSending(s.sessions[ref.fd], departed.sessions[ref.fd]);
    QueueKeepsCore(cfg, departed, ref, Bye);
    QueueIsQuiet(cfg, departed, ref, Bye);
    QueuedIsInFlight(cfg, departed, ref, Bye);
    var bye := QueueResponse(cfg, departed, ref, Bye);
    SavedThenQuiet(s.hist, departed.hist, bye.hist, ref, PlacesSaved(s.world, Some(DoLeave(ref))), s.hist[ref].settled);
    CloseAfterFlushKeepsCore(cfg, bye, ref);
    QuitSessions(s, departed, bye, ref);
  }

  lemma QuitSessions(s: ServerState, departed: ServerState, bye: ServerState, ref: SessionRef)
    requires SameSessions(s, departed) && SameSessions(departed, bye) && ref.fd in s.sessions
    ensures var r := CloseAfterFlush(bye, ref);
            && r.sessions.Keys == s.sessions.Keys
            && (forall fd :: fd in s.sessions ==>
                  && r.sessions[fd].fd == s.sessions[fd].fd && r.sessions[fd].generation == s.sessions[fd].generation
                  && r.sessions[fd].input == s.sessions[fd].input
                  && r.sessions[fd].closeAfterFlush == (s.sessions[fd].closeAfterFlush || fd == ref.fd))
  {
    forall fd | fd in s.sessions ensures SameButSending(s.sessions[fd], bye.sessions[fd]) {
      assert SameButSending(s.sessions[fd], departed.sessions[fd]);
      assert SameButSending(departed.sessions[fd], bye.sessions[fd]);
    }
  }

  function SettledAfter(s: ServerState, op: Op): bool {
    Views.StaysSettled(s.world, HistoryOf(s, op.ref).settled, op.ref, op)
  }

  lemma InTheWorldEffect(cfg: Config, s: ServerState, op: Op)
    requires Core(cfg, s) && IsLive(s, op.ref)
    ensures var r := InTheWorld(cfg, s, op);
            && Core(cfg, r) && r.hist.Keys == s.hist.Keys && op.ref in r.hist
            && r.terminated == s.terminated
            && Effect(s, r, op.ref, W.Apply(s.world, cfg.order, op).world, [], SettledAfter(s, op), false)
  {
    OpenIsPrefix(cfg, s, op.ref);
    var settled := SettledAfter(s, op);
    var s1 := Settle(s, op.ref, settled);
    var outcome := W.Apply(s.world, cfg.order, op);
    NoteKeepsCore(cfg, s, op.ref, s1.hist[op.ref]);
    PublishKeepsCore(cfg, s1, outcome);
    PublishIsQuiet(cfg, s1, outcome);
    var r := Publish(cfg, s1, outcome);
    SettledThenQuiet(s.hist, r.hist, op.ref, settled);
    QuietSessionsEffect(s1, r);
  }

  lemma SettledThenQuiet(a: Histories, c: Histories, ref: SessionRef, settled: bool)
    requires ref in a && QuietHistories(a[ref := a[ref].(settled := settled)], c)
    ensures SavedFor(a, c, ref, [], settled)
  {
    var b := a[ref := a[ref].(settled := settled)];
    assert QuietHistory(b[ref], c[ref]);
    forall q | q in a && q != ref ensures QuietHistory(a[q], c[q]) {
      assert QuietHistory(b[q], c[q]);
    }
  }

  lemma QuietSessionsEffect(s: ServerState, r: ServerState)
    requires SameSessions(s, r)
    ensures forall fd :: fd in s.sessions ==>
              && r.sessions[fd].fd == s.sessions[fd].fd && r.sessions[fd].generation == s.sessions[fd].generation
              && r.sessions[fd].input == s.sessions[fd].input
              && r.sessions[fd].closeAfterFlush == s.sessions[fd].closeAfterFlush
  {
    forall fd | fd in s.sessions ensures SameButSending(s.sessions[fd], r.sessions[fd]) {
    }
  }

  lemma EnterEffect(cfg: Config, s: ServerState, s1: ServerState, ref: SessionRef, p: Place, settled: bool)
    requires Core(cfg, s1) && Effect(s, s1, ref, s1.world, [], settled, false)
    ensures var r := SubmitPositionSave(s1, ref, p);
            && Core(cfg, r) && r.terminated == s1.terminated
            && Effect(s, r, ref, s1.world, [p], settled, false)
  {
    SaveKeepsCore(cfg, s1, ref, p);
    SaveEffect(s1, ref, p);
    OneSaved(s.hist, s1.hist, SubmitPositionSave(s1, ref, p).hist, ref, p, settled);
  }

  lemma WorldEffect(cfg: Config, s: ServerState, op: Op)
    requires Core(cfg, s) && IsLive(s, op.ref) && !op.DoLeave?
    ensures var r := HandleWorld(cfg, s, op);
            && Core(cfg, r)
            && r.terminated == s.terminated
            && Effect(s, r, op.ref, W.Apply(s.world, cfg.order, op).world, PlacesSaved(s.world, Some(op)),
                      SettledAfter(s, op), false)
  {
    InTheWorldEffect(cfg, s, op);
    if op.DoEnter? {
      EnterWorldEffect(cfg, s, InTheWorld(cfg, s, op), op, SettledAfter(s, op));
    } else {
      OnlyEntersSave(s.world, op);
    }
  }

  lemma OnlyEntersSave(w: WorldState, op: Op)
    requires !op.DoEnter? && !op.DoLeave?
    ensures PlacesSaved(w, Some(op)) == []
  {
  }

  lemma EnterWorldEffect(cfg: Config, s: ServerState, s1: ServerState, op: Op, settled: bool)
    requires Core(cfg, s1) && Effect(s, s1, op.ref, s1.world, [], settled, false) && op.DoEnter?
    ensures var r := SubmitPositionSave(s1, op.ref, Place(op.account, op.character, op.x, op.y));
            && Core(cfg, r) && r.terminated == s1.terminated
            && Effect(s, r, op.ref, s1.world, PlacesSaved(s.world, Some(op)), settled, false)
  {
    EnterEffect(cfg, s, s1, op.ref, Place(op.account, op.character, op.x, op.y), settled);
  }

  lemma OneSaved(a: Histories, b: Histories, c: Histories, ref: SessionRef, p: Place, settled: bool)
    requires SavedFor(a, b, ref, [], settled) && SavedFor(b, c, ref, [p], settled)
    ensures SavedFor(a, c, ref, [p], settled)
  {
    assert b[ref].saves == a[ref].saves;
    forall q | q in a && q != ref ensures QuietHistory(a[q], c[q]) {
      assert QuietHistory(a[q], b[q]) && QuietHistory(b[q], c[q]);
    }
  }

  lemma DatabaseEffect(cfg: Config, s: ServerState, ref: SessionRef, r: Request)
    requires Core(cfg, s) && IsLive(s, ref)
    ensures ref in s.hist
    ensures var t := HandleDatabase(cfg, s, ref, r);
            && Core(cfg, t) && t.terminated == s.terminated
            && Effect(s, t, ref, s.world, [], s.hist[ref].settled, false)
  {
    OpenIsPrefix(cfg, s, ref);
    match OperationFor(r.command)
    case None =>
      QueueKeepsCore(cfg, s, ref, Unsupported);
      QuietEffect(cfg, s, ref, Unsupported);
    case Some(operation) =>
      RequestKeepsCore(cfg, s, ref, operation, r);
      RequestIsAnnounce(cfg, s, ref, operation, r);
      AnnounceEffect(cfg, s, ref, Pending(s.nextRequestId, r.name),
                     DbJob(Ticket(ref, s.nextRequestId, true), operation, r.name, r.args));
  }

  lemma AnnounceEffect(cfg: Config, s: ServerState, ref: SessionRef, reply: Reply, job: DbJob)
    requires Core(cfg, s) && IsLive(s, ref) && ref in s.hist
    ensures Effect(s, Submit(Enqueued(cfg, Expect(s, ref), ref, reply), job),
                   ref, s.world, [], s.hist[ref].settled, false)
  {
    var t := Submit(Enqueued(cfg, Expect(s, ref), ref, reply), job);
    ReplyIsQuiet(s.hist, ref, reply);
    assert t.hist == WithReply(s.hist, ref, reply);
    NothingSaved(s.hist, t.hist, ref);
  }

  lemma ReplyIsQuiet(hist: Histories, ref: SessionRef, reply: Reply)
    requires ref in hist
    ensures QuietHistories(hist, WithReply(hist, ref, reply))
  {
  }

  lemma QuietEffect(cfg: Config, s: ServerState, ref: SessionRef, reply: Reply)
    requires Core(cfg, s) && IsLive(s, ref) && ref in s.hist
    ensures var r := QueueResponse(cfg, s, ref, reply);
            && r.terminated == s.terminated
            && Effect(s, r, ref, s.world, [], s.hist[ref].settled, false)
  {
    QueueIsQuiet(cfg, s, ref, reply);
    var r := QueueResponse(cfg, s, ref, reply);
    QuietSessionsEffect(s, r);
    NothingSaved(s.hist, r.hist, ref);
  }

  function SettledByLine(s: ServerState, ref: SessionRef, line: string): bool {
    LineSettles(s.world, HistoryOf(s, ref).settled, ref, line)
  }

  function LineSettles(w: WorldState, settled: bool, ref: SessionRef, line: string): bool {
    match LineOp(ref, line)
    case Some(op) => if op.DoLeave? then settled else Views.StaysSettled(w, settled, op.ref, op)
    case None => settled
  }

  /** Handling a line keeps the core invariant and does to the world, to the saves, to the session's
      flags and to everybody else exactly what the line stands for. */
  lemma HandleEffect(cfg: Config, s: ServerState, ref: SessionRef, line: string)
    requires Core(cfg, s) && IsLive(s, ref) && !s.terminated
    ensures var r := Handle(cfg, s, ref, line);
            && Core(cfg, r)
            && (r.terminated <==> IsOutOfRange(line))
            && Effect(s, r, ref, WorldAfter(s.world, cfg.order, LineOp(ref, line)),
                      PlacesSaved(s.world, LineOp(ref, line)), SettledByLine(s, ref, line), IsQuit(line))
  {
    match Parse(line)
    case Error(e) => RefusedLineEffect(cfg, s, ref, line, e);
    case Ok(r) =>
      if r.command == Quit {
        QuitLineEffect(cfg, s, ref, line, r);
      } else {
        RequestLineEffect(cfg, s, ref, line, r);
      }
  }

  lemma RefusedLineEffect(cfg: Config, s: ServerState, ref: SessionRef, line: string, e: ParseError)
    requires Core(cfg, s) && IsLive(s, ref) && Parse(line) == Error(e)
    ensures !IsOutOfRange(line) && !IsQuit(line) && LineOp(ref, line) == None && ref in s.hist
    ensures var r := QueueResponse(cfg, s, ref, Refused(e));
            && Core(cfg, r) && r.terminated == s.terminated
            && Effect(s, r, ref, s.world, [], s.hist[ref].settled, false)
  {
    RefusalEffect(cfg, s, ref, e);
  }

  lemma RefusalEffect(cfg: Config, s: ServerState, ref: SessionRef, e: ParseError)
    requires Core(cfg, s) && IsLive(s, ref)
    ensures ref in s.hist
    ensures var r := QueueResponse(cfg, s, ref, Refused(e));
            && Core(cfg, r) && r.terminated == s.terminated
            && Effect(s, r, ref, s.world, [], s.hist[ref].settled, false)
  {
    OpenIsPrefix(cfg, s, ref);
    QueueKeepsCore(cfg, s, ref, Refused(e));
    QuietEffect(cfg, s, ref, Refused(e));
  }

  lemma QuitLineEffect(cfg: Config, s: ServerState, ref: SessionRef, line: string, r: Request)
    requires Core(cfg, s) && IsLive(s, ref) && Parse(line) == Ok(r) && r.command == Quit
    ensures !IsOutOfRange(line) && IsQuit(line) && LineOp(ref, line) == Some(DoLeave(ref)) && ref in s.hist
    ensures var t := HandleQuit(cfg, s, ref);
            && Core(cfg, t) && t.terminated == s.terminated
            && Effect(s, t, ref, W.Leave(s.world, cfg.order, ref).world,
                      PlacesSaved(s.world, Some(DoLeave(ref))), s.hist[ref].settled, true)
  {
    ParseAccepts(line, r);
    QuitEffect(cfg, s, ref);
  }

  lemma RequestLineEffect(cfg: Config, s: ServerState, ref: SessionRef, line: string, r: Request)
    requires Core(cfg, s) && IsLive(s, ref) && !s.terminated && Parse(line) == Ok(r) && r.command != Quit
    ensures ValidRequest(r) && !IsQuit(line)
    ensures var t := HandleRequest(cfg, s, ref, r);
            && Core(cfg, t)
            && (t.terminated <==> IsOutOfRange(line))
            && Effect(s, t, ref, WorldAfter(s.world, cfg.order, LineOp(ref, line)),
                      PlacesSaved(s.world, LineOp(ref, line)), SettledByLine(s, ref, line), false)
  {
    ParseAccepts(line, r);
    OpenIsPrefix(cfg, s, ref);
    RequestEffect(cfg, s, ref, r);
    OpRef(ref, r);
  }

  lemma OpRef(ref: SessionRef, r: Request)
    requires ValidRequest(r)
    ensures WorldRequestOf(ref, r).InRange? ==>
      WorldRequestOf(ref, r).op.ref == ref && !WorldRequestOf(ref, r).op.DoLeave?
    ensures WorldRequestOf(ref, r) == OutOfRange <==> WorldRequestOf(SessionRef(0, 0), r) == OutOfRange
  {
  }

  lemma RequestEffect(cfg: Config, s: ServerState, ref: SessionRef, r: Request)
    requires Core(cfg, s) && IsLive(s, ref) && !s.terminated && ref in s.hist
    requires ValidRequest(r) && r.command != Quit
    ensures var t := HandleRequest(cfg, s, ref, r);
            var w := WorldRequestOf(ref, r);
            var op := if w.InRange? then Some(w.op) else None;
            && Core(cfg, t)
            && (t.terminated <==> w == OutOfRange)
            && Effect(s, t, ref, WorldAfter(s.world, cfg.order, op), PlacesSaved(s.world, op),
                      if w.InRange? then SettledAfter(s, w.op) else s.hist[ref].settled, false)
  {
    OpRef(ref, r);
    match WorldRequestOf(ref, r)
    case OutOfRange => TerminatedEffect(cfg, s, ref);
    case InRange(op) => WorldEffect(cfg, s, op);
    case NoWorld => DatabaseEffect(cfg, s, ref, r);
  }

  lemma TerminatedEffect(cfg: Config, s: ServerState, ref: SessionRef)
    requires Core(cfg, s) && ref.fd in s.sessions && ref in s.hist
    ensures Core(cfg, s.(terminated := true))
    ensures Effect(s, s.(terminated := true), ref, s.world, [], s.hist[ref].settled, false)
  {
    NothingSaved(s.hist, s.hist, ref);
  }
}

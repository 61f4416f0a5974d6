/** What the lines queued for a client tell it about the players around it. */
module ServerViews {
  import W = World
  import opened World
  import V = Views
  import F = Framing
  import opened Protocol
  import opened Server
  import opened ServerCore
  import opened ServerSteps
  import opened ServerClosing
  import opened ServerLines
  import opened ServerPlaces

  // The world lines among the replies queued for a connection.
  function Told(queued: seq<Reply>): seq<WorldLine> {
    if queued == [] then []
    else
      var rest := Told(queued[..|queued| - 1]);
      match queued[|queued| - 1]
      case InWorld(line) => rest + [line]
      case _ => rest
  }

  lemma ToldAppend(queued: seq<Reply>, reply: Reply)
    ensures Told(queued + [reply]) == Told(queued) + if reply.InWorld? then [reply.told] else []
  {
    assert (queued + [reply])[..|queued|] == queued;
  }

  // What the client of a connection sees, if it reads everything queued for it.
  function ViewOf(h: History): V.View {
    V.ObserveAll(map[], Told(h.queued))
  }

  // The replies that tell some world lines.
  function AsReplies(lines: seq<WorldLine>): (replies: seq<Reply>)
    ensures |replies| == |lines|
  {
    seq(|lines|, i requires 0 <= i < |lines| => InWorld(lines[i]))
  }

  lemma {:induction false} ToldLines(queued: seq<Reply>, lines: seq<WorldLine>)
    ensures Told(queued + AsReplies(lines)) == Told(queued) + lines
  {
    if lines == [] {
      assert queued + AsReplies(lines) == queued;
    } else {
      var most, last := lines[..|lines| - 1], lines[|lines| - 1];
      ToldLines(queued, most);
      assert queued + AsReplies(lines) == (queued + AsReplies(most)) + [InWorld(last)];
      ToldAppend(queued + AsReplies(most), InWorld(last));
      assert (Told(queued) + most) + [last] == Told(queued) + lines;
    }
  }

  // What was queued for a connection from one state to the other.
  ghost predicate Queued(s: ServerState, r: ServerState, q: SessionRef, more: seq<Reply>) {
    q in s.hist && q in r.hist && r.hist[q].queued == s.hist[q].queued + more
  }

  lemma QueueQueues(cfg: Config, s: ServerState, ref: SessionRef, reply: Reply, q: SessionRef)
    requires Core(cfg, s) && q in s.hist
    ensures Queued(s, QueueResponse(cfg, s, ref, reply), q, if q == ref && IsLive(s, q) then [reply] else [])
  {
    QueueIsEnqueue(cfg, s, ref, reply);
  }

  /** Every event reaches the connection it is meant for, if that is live; in order, once; and nothing
      else is queued. */
  lemma {:induction false} DeliverQueues(cfg: Config, s: ServerState, events: seq<WorldEvent>, q: SessionRef)
    requires Core(cfg, s) && q in s.hist
    ensures Queued(s, Deliver(cfg, s, events), q, AsReplies(if IsLive(s, q) then LinesFor(events, q) else []))
  {
    if events == [] {
    } else {
      var most, last := events[..|events| - 1], events[|events| - 1];
      DeliverQueues(cfg, s, most, q);
      DeliverKeepsCore(cfg, s, most);
      DeliverKeepsLive(cfg, s, most, q);
      OneMoreQueued(cfg, s, Deliver(cfg, s, most), last, q, LinesFor(most, q));
    }
  }

  lemma OneMoreQueued(
    cfg: Config, s: ServerState, s1: ServerState, e: WorldEvent, q: SessionRef, lines: seq<WorldLine>)
    requires Core(cfg, s1) && Queued(s, s1, q, AsReplies(if IsLive(s1, q) then lines else []))
    ensures var more := if e.receiver == q then lines + [e.line] else lines;
            Queued(s, QueueResponse(cfg, s1, e.receiver, InWorld(e.line)), q,
                   AsReplies(if IsLive(s1, q) then more else []))
  {
    QueueQueues(cfg, s1, e.receiver, InWorld(e.line), q);
    assert AsReplies(lines + [e.line]) == AsReplies(lines) + [InWorld(e.line)];
    F.Regroup(s.hist[q].queued, AsReplies(lines), [InWorld(e.line)]);
  }

  lemma DeliverTells(cfg: Config, s: ServerState, events: seq<WorldEvent>, q: SessionRef)
    requires Core(cfg, s) && q in s.hist
    ensures var r := Deliver(cfg, s, events);
            && q in r.hist
            && (IsLive(r, q) <==> IsLive(s, q))
            && Told(r.hist[q].queued) == Told(s.hist[q].queued) + if IsLive(s, q) then LinesFor(events, q) else []
  {
    DeliverKeepsLive(cfg, s, events, q);
    DeliverQueues(cfg, s, events, q);
    ToldOfQueued(s, Deliver(cfg, s, events), q, if IsLive(s, q) then LinesFor(events, q) else []);
  }

  lemma ToldOfQueued(s: ServerState, r: ServerState, q: SessionRef, lines: seq<WorldLine>)
    requires Queued(s, r, q, AsReplies(lines))
    ensures Told(r.hist[q].queued) == Told(s.hist[q].queued) + lines
  {
    ToldLines(s.hist[q].queued, lines);
  }

  lemma DeliverKeepsLive(cfg: Config, s: ServerState, events: seq<WorldEvent>, q: SessionRef)
    ensures IsLive(Deliver(cfg, s, events), q) <==> IsLive(s, q)
  {
    DeliverKeepsSessions(cfg, s, events);
    LiveUnderQuiet(s, Deliver(cfg, s, events), q);
  }

  lemma LiveUnderQuiet(s: ServerState, r: ServerState, q: SessionRef)
    requires SameSessions(s, r)
    ensures IsLive(r, q) <==> IsLive(s, q)
  {
    if q.fd in s.sessions {
      assert SameButSending(s.sessions[q.fd], r.sessions[q.fd]);
    }
  }

  lemma QueueTells(cfg: Config, s: ServerState, ref: SessionRef, reply: Reply, q: SessionRef)
    requires Core(cfg, s) && q in s.hist
    ensures var r := QueueResponse(cfg, s, ref, reply);
            && q in r.hist
            && Told(r.hist[q].queued) ==
               Told(s.hist[q].queued) + if q == ref && IsLive(s, ref) && reply.InWorld? then [reply.told] else []
  {
    QueueIsEnqueue(cfg, s, ref, reply);
    if IsLive(s, ref) && q == ref {
      ToldAppend(s.hist[q].queued, reply);
    }
  }

  // ---------- The views are right ----------

  ghost predicate SeesRight(w: WorldState, h: History, q: SessionRef) {
    q in w.players && h.settled ==> ViewOf(h) == V.TrueView(w, q)
  }

  /** Whoever entered, and has not since brought anyone into or out of range by moving, has been
      told exactly who is around it and where. */
  ghost predicate ViewsIn(w: WorldState, hist: Histories) {
    forall q :: q in hist ==> SeesRight(w, hist[q], q)
  }

  // Nothing new about the world was told to anyone.
  ghost predicate SameTold(a: Histories, b: Histories) {
    a.Keys == b.Keys && forall q :: q in a ==> Told(a[q].queued) == Told(b[q].queued) && a[q].settled == b[q].settled
  }

  lemma SameToldKeepsViews(w: WorldState, a: Histories, b: Histories)
    requires ViewsIn(w, a) && SameTold(a, b)
    ensures ViewsIn(w, b)
  {
    forall q | q in b ensures SeesRight(w, b[q], q) {
      assert SeesRight(w, a[q], q);
    }
  }

  lemma QueueIsSilent(cfg: Config, s: ServerState, ref: SessionRef, reply: Reply)
    requires Core(cfg, s) && !reply.InWorld?
    ensures SameTold(s.hist, QueueResponse(cfg, s, ref, reply).hist)
  {
    QueueIsQuiet(cfg, s, ref, reply);
    var r := QueueResponse(cfg, s, ref, reply);
    forall q | q in s.hist
      ensures Told(s.hist[q].queued) == Told(r.hist[q].queued) && s.hist[q].settled == r.hist[q].settled
    {
      QueueTells(cfg, s, ref, reply, q);
      assert QuietHistory(s.hist[q], r.hist[q]);
    }
  }

  // One world operation, told to everybody live: right views stay right.
  lemma OpKeepsView(w: WorldState, order: Order, op: Op, q: SessionRef, a: History, b: History)
    requires IndexValid(w) && ValidOrder(order) && SeesRight(w, a, q)
    requires Told(b.queued) == Told(a.queued) + LinesFor(W.Apply(w, order, op).events, q)
    requires b.settled ==> V.StaysSettled(w, a.settled, q, op) || (q == op.ref && op.DoLeave?)
    ensures SeesRight(W.Apply(w, order, op).world, b, q)
  {
    var w1 := W.Apply(w, order, op).world;
    PlacesAfterOp(w, order, op, q);
    if q in w1.players && b.settled {
      var t := V.Watched(w, ViewOf(a), a.settled);
      V.ObserveConcat(map[], Told(a.queued), LinesFor(W.Apply(w, order, op).events, q));
      assert V.Step(t, order, q, op).view == ViewOf(b);
      V.StepAccurate(t, order, q, op);
    }
  }

  lemma PublishKeepsViews(cfg: Config, s: ServerState, s1: ServerState, op: Op)
    requires Core(cfg, s1) && IndexValid(s.world) && ValidOrder(cfg.order) && ViewsIn(s.world, s.hist)
    requires s1.hist.Keys == s.hist.Keys && op.ref in s.hist
    requires forall q :: q in s.hist && q != op.ref ==> s1.hist[q] == s.hist[q]
    requires s1.hist[op.ref].queued == s.hist[op.ref].queued
    requires s1.hist[op.ref].settled ==>
               op.DoLeave? || V.StaysSettled(s.world, s.hist[op.ref].settled, op.ref, op)
    requires forall q :: q in W.Apply(s.world, cfg.order, op).world.players ==> IsLive(s1, q)
    ensures var outcome := W.Apply(s.world, cfg.order, op);
            ViewsIn(outcome.world, Publish(cfg, s1, outcome).hist) && Publish(cfg, s1, outcome).world == outcome.world
  {
    var outcome := W.Apply(s.world, cfg.order, op);
    var r := Publish(cfg, s1, outcome);
    PublishIsQuiet(cfg, s1, outcome);
    forall q | q in r.hist ensures SeesRight(outcome.world, r.hist[q], q) {
      PublishTells(cfg, s1, outcome, q);
      if q in outcome.world.players {
        assert SeesRight(s.world, s.hist[q], q);
        OpKeepsView(s.world, cfg.order, op, q, s.hist[q], r.hist[q]);
      }
    }
  }

  lemma PublishTells(cfg: Config, s: ServerState, outcome: Outcome, q: SessionRef)
    requires Core(cfg, s) && q in s.hist
    ensures var r := Publish(cfg, s, outcome);
            && q in r.hist && r.hist[q].settled == s.hist[q].settled
            && Told(r.hist[q].queued) ==
               Told(s.hist[q].queued) + if IsLive(s, q) then LinesFor(outcome.events, q) else []
  {
    var s1 := s.(world := outcome.world);
    QuietKeepsCore(cfg, s, s1);
    DeliverIsQuiet(cfg, s1, outcome.events);
    DeliverTells(cfg, s1, outcome.events, q);
    assert QuietHistory(s1.hist[q], Publish(cfg, s, outcome).hist[q]);
  }

  lemma PlayersStillLive(w: WorldState, order: Order, op: Op, sessions: Sessions)
    requires forall q :: q in w.players && q != op.ref ==> LiveIn(sessions, q)
    requires op.DoLeave? || LiveIn(sessions, op.ref)
    ensures forall q :: q in W.Apply(w, order, op).world.players ==> LiveIn(sessions, q)
  {
    forall q | q in W.Apply(w, order, op).world.players ensures LiveIn(sessions, q) {
      PlacesAfterOp(w, order, op, q);
    }
  }

  // ---------- Handlers ----------

  lemma SaveIsSilent(s: ServerState, ref: SessionRef, p: Place)
    requires ref in s.hist
    ensures SameTold(s.hist, SubmitPositionSave(s, ref, p).hist)
  {
  }

  lemma DepartKeepsViews(cfg: Config, s: ServerState, ref: SessionRef)
    requires Core(cfg, s) && ref in s.hist && IndexValid(s.world) && ValidOrder(cfg.order) && ViewsIn(s.world, s.hist)
    requires forall q :: q in s.world.players && q != ref ==> IsLive(s, q)
    ensures ViewsIn(Depart(cfg, s, ref).world, Depart(cfg, s, ref).hist)
  {
    var op := DoLeave(ref);
    PlayersStillLive(s.world, cfg.order, op, s.sessions);
    PublishKeepsViews(cfg, s, s, op);
    var left := W.Leave(s.world, cfg.order, ref);
    var s1 := Publish(cfg, s, left);
    PublishIsQuiet(cfg, s, left);
    var snapshot := SnapshotOf(s.world, ref);
    if snapshot.account != "" {
      var p := Place(snapshot.account, snapshot.character, snapshot.x, snapshot.y);
      SaveIsSilent(s1, ref, p);
      SameToldKeepsViews(s1.world, s1.hist, SubmitPositionSave(s1, ref, p).hist);
    }
  }

  lemma SettleKeepsCore(cfg: Config, s: ServerState, ref: SessionRef, settled: bool)
    requires Core(cfg, s) && IsLive(s, ref)
    ensures ref in s.hist && Core(cfg, Settle(s, ref, settled))
    ensures Settle(s, ref, settled).hist == s.hist[ref := s.hist[ref].(settled := settled)]
  {
    OpenIsPrefix(cfg, s, ref);
    NoteKeepsCore(cfg, s, ref, s.hist[ref].(settled := settled));
  }

  lemma InTheWorldKeepsViews(cfg: Config, s: ServerState, op: Op)
    requires Core(cfg, s) && IndexValid(s.world) && PlayersLive(s.world, s.sessions) && ViewsIn(s.world, s.hist)
    requires IsLive(s, op.ref) && ValidOrder(cfg.order) && !op.DoLeave?
    ensures ViewsIn(InTheWorld(cfg, s, op).world, InTheWorld(cfg, s, op).hist)
  {
    SettleKeepsCore(cfg, s, op.ref, SettledAfter(s, op));
    SettledKeepsViews(cfg, s, op);
  }

  lemma SettledKeepsViews(cfg: Config, s: ServerState, op: Op)
    requires Core(cfg, Settle(s, op.ref, SettledAfter(s, op))) && op.ref in s.hist
    requires IndexValid(s.world) && PlayersLive(s.world, s.sessions) && ViewsIn(s.world, s.hist)
    requires IsLive(s, op.ref) && ValidOrder(cfg.order) && !op.DoLeave?
    ensures ViewsIn(InTheWorld(cfg, s, op).world, InTheWorld(cfg, s, op).hist)
  {
    var s1 := Settle(s, op.ref, SettledAfter(s, op));
    PlayersStillLive(s.world, cfg.order, op, s1.sessions);
    PublishKeepsViews(cfg, s, s1, op);
  }

  lemma HandleKeepsViews(cfg: Config, s: ServerState, ref: SessionRef, line: string)
    requires Core(cfg, s) && Places(s) && ViewsIn(s.world, s.hist) && IsLive(s, ref) && ValidOrder(cfg.order)
    ensures ViewsIn(Handle(cfg, s, ref, line).world, Handle(cfg, s, ref, line).hist)
  {
    OpenIsPrefix(cfg, s, ref);
    match Parse(line)
    case Error(e) =>
      QueueIsSilent(cfg, s, ref, Refused(e));
      QueueIsQuiet(cfg, s, ref, Refused(e));
      SameToldKeepsViews(s.world, s.hist, QueueResponse(cfg, s, ref, Refused(e)).hist);
    case Ok(r) =>
      ParseAccepts(line, r);
      if r.command == Quit {
        QuitKeepsViews(cfg, s, ref);
      } else {
        OpRef(ref, r);
        match WorldRequestOf(ref, r)
        case OutOfRange =>
        case InRange(op) => WorldKeepsViews(cfg, s, op);
        case NoWorld => DatabaseKeepsViews(cfg, s, ref, r);
      }
  }

  lemma QuitKeepsViews(cfg: Config, s: ServerState, ref: SessionRef)
    requires Core(cfg, s) && Places(s) && ViewsIn(s.world, s.hist) && IsLive(s, ref) && ValidOrder(cfg.order)
    ensures ViewsIn(HandleQuit(cfg, s, ref).world, HandleQuit(cfg, s, ref).hist)
  {
    OpenIsPrefix(cfg, s, ref);
    DepartKeepsViews(cfg, s, ref);
    DepartKeepsCore(cfg, s, ref);
    var departed := Depart(cfg, s, ref);
    QueueIsSilent(cfg, departed, ref, Bye);
    QueueIsQuiet(cfg, departed, ref, Bye);
    SameToldKeepsViews(departed.world, departed.hist, QueueResponse(cfg, departed, ref, Bye).hist);
  }

  lemma WorldKeepsViews(cfg: Config, s: ServerState, op: Op)
    requires Core(cfg, s) && Places(s) && ViewsIn(s.world, s.hist) && IsLive(s, op.ref) && ValidOrder(cfg.order)
    requires !op.DoLeave?
    ensures ViewsIn(HandleWorld(cfg, s, op).world, HandleWorld(cfg, s, op).hist)
  {
    InTheWorldKeepsViews(cfg, s, op);
    InTheWorldEffect(cfg, s, op);
    if op.DoEnter? {
      var s1 := InTheWorld(cfg, s, op);
      var p := Place(op.account, op.character, op.x, op.y);
      SaveIsSilent(s1, op.ref, p);
      SameToldKeepsViews(s1.world, s1.hist, SubmitPositionSave(s1, op.ref, p).hist);
    }
  }

  lemma DatabaseKeepsViews(cfg: Config, s: ServerState, ref: SessionRef, r: Request)
    requires Core(cfg, s) && ViewsIn(s.world, s.hist) && IsLive(s, ref)
    ensures ViewsIn(HandleDatabase(cfg, s, ref, r).world, HandleDatabase(cfg, s, ref, r).hist)
  {
    OpenIsPrefix(cfg, s, ref);
    match OperationFor(r.command)
    case None =>
      QueueIsSilent(cfg, s, ref, Unsupported);
      QueueIsQuiet(cfg, s, ref, Unsupported);
      SameToldKeepsViews(s.world, s.hist, QueueResponse(cfg, s, ref, Unsupported).hist);
    case Some(operation) =>
      RequestIsAnnounce(cfg, s, ref, operation, r);
      var t := RequestJob(cfg, s, ref, operation, r);
      ToldAppend(s.hist[ref].queued, Pending(s.nextRequestId, r.name));
      assert SameTold(s.hist, t.hist);
      SameToldKeepsViews(s.world, s.hist, t.hist);
  }

  lemma NoteIsSilent(r: ServerState, ref: SessionRef, h: History)
    requires ViewsIn(r.world, r.hist) && ref in r.hist
    requires h.queued == r.hist[ref].queued && h.settled == r.hist[ref].settled
    ensures ViewsIn(Note(r, ref, h).world, Note(r, ref, h).hist)
  {
    SameToldKeepsViews(r.world, r.hist, Note(r, ref, h).hist);
  }

  lemma HandleLineKeepsViews(cfg: Config, s: ServerState, ref: SessionRef, line: string)
    requires Core(cfg, s) && Places(s) && ViewsIn(s.world, s.hist) && IsLive(s, ref) && ValidOrder(cfg.order)
    requires !s.terminated
    ensures ViewsIn(HandleLine(cfg, s, ref, line).world, HandleLine(cfg, s, ref, line).hist)
  {
    HandleKeepsViews(cfg, s, ref, line);
    HandleEffect(cfg, s, ref, line);
    var r := Handle(cfg, s, ref, line);
    NoteIsSilent(r, ref, r.hist[ref].(lines := r.hist[ref].lines + [line]));
  }

  lemma CloseKeepsViews(cfg: Config, s: ServerState, ref: SessionRef, ending: Ending)
    requires Core(cfg, Erased(s, ref, ending)) && IsLive(s, ref) && s.sessions[ref.fd].fd == ref.fd
    requires WorldValid(s.world) && PlayersLive(s.world, s.sessions) && ViewsIn(s.world, s.hist)
    requires ValidOrder(cfg.order) && ref in s.hist
    ensures ViewsIn(CloseSession(cfg, s, ref.fd, ending).world, CloseSession(cfg, s, ref.fd, ending).hist)
  {
    CloseIsErase(cfg, s, ref, ending);
    ErasedKeepsViews(s, ref, ending);
    DepartKeepsViews(cfg, Erased(s, ref, ending), ref);
  }

  lemma ErasedKeepsViews(s: ServerState, ref: SessionRef, ending: Ending)
    requires ViewsIn(s.world, s.hist) && ref in s.hist
    ensures ViewsIn(s.world, Erased(s, ref, ending).hist)
  {
    SameToldKeepsViews(s.world, s.hist, Erased(s, ref, ending).hist);
  }
}

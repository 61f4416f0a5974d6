/** The server's own side of each conversation, over whole runs: it greets, gives every line of the
    client exactly the reply that the line calls for, in order, refuses an overlong rest, and asks of the
    database exactly what the lines ask. */
module Conversations {
  import opened Decimal
  import W = World
  import opened World
  import F = Framing
  import opened Server
  import opened ServerCore
  import opened ServerSteps
  import opened ServerClosing
  import opened ServerSends
  import opened ServerLines
  import opened ServerViews
  import opened ServerRecv
  import opened ServerReplies
  import opened ServerInvariant
  import opened ServerHandlers
  import opened Tables
  import opened System
  import opened Runs

  // ---------- What was said and what was asked ----------

  // The replies that are neither events of the world nor answers from the database, requests announced
  // without their ids.
  function Direct(queued: seq<Reply>): seq<Reply> {
    if queued == [] then []
    else
      Direct(queued[..|queued| - 1]) +
        match queued[|queued| - 1]
        case InWorld(_) => []
        case Answer(_, _, _) => []
        case Pending(_, name) => [Pending(0, name)]
        case reply => [reply]
  }

  lemma {:induction false} DirectConcat(a: seq<Reply>, b: seq<Reply>)
    ensures Direct(a + b) == Direct(a) + Direct(b)
  {
    if b == [] {
      assert a + b == a;
    } else {
      DirectConcat(a, b[..|b| - 1]);
      assert (a + b)[..|a + b| - 1] == a + b[..|b| - 1];
    }
  }

  lemma {:induction false} NothingDirect(replies: seq<Reply>)
    requires forall i :: 0 <= i < |replies| ==> replies[i].InWorld? || replies[i].Answer?
    ensures Direct(replies) == []
  {
    if replies == [] {
    } else {
      NothingDirect(replies[..|replies| - 1]);
    }
  }

  lemma DirectReply(line: string, id: nat)
    ensures Direct(ReplyTo(line, id)) == ReplyTo(line, 0)
  {
    var replies := ReplyTo(line, id);
    assert |replies| == 1 ==> replies[..0] == [];
  }

  // What the jobs of one connection that are to be answered ask of the database.
  function Demands(jobs: seq<DbJob>, q: SessionRef): seq<Demand> {
    if jobs == [] then []
    else
      var last := jobs[|jobs| - 1];
      Demands(jobs[..|jobs| - 1], q) +
        if last.ticket.notify && last.ticket.ref == q then [Demand(last.operation, last.name, last.args)] else []
  }

  lemma {:induction false} DemandsConcat(a: seq<DbJob>, b: seq<DbJob>, q: SessionRef)
    ensures Demands(a + b, q) == Demands(a, q) + Demands(b, q)
  {
    if b == [] {
      assert a + b == a;
    } else {
      DemandsConcat(a, b[..|b| - 1], q);
      assert (a + b)[..|a + b| - 1] == a + b[..|b| - 1];
    }
  }

  // The replies that some lines call for, one after the other.
  function RepliesTo(lines: seq<string>): seq<Reply> {
    if lines == [] then [] else RepliesTo(lines[..|lines| - 1]) + ReplyTo(lines[|lines| - 1], 0)
  }

  // What some lines ask of the database.
  function AskedByAll(lines: seq<string>): seq<Demand> {
    if lines == [] then [] else AskedByAll(lines[..|lines| - 1]) + Listing(AskedBy(lines[|lines| - 1]))
  }

  function Listing<T>(x: Option<T>): seq<T> {
    if x.Some? then [x.value] else []
  }

  lemma {:induction false} RepliesToConcat(a: seq<string>, b: seq<string>)
    ensures RepliesTo(a + b) == RepliesTo(a) + RepliesTo(b)
  {
    if b == [] {
      assert a + b == a;
    } else {
      var most, last := b[..|b| - 1], b[|b| - 1];
      RepliesToConcat(a, most);
      assert (a + b)[..|a + b| - 1] == a + most;
      F.Regroup(RepliesTo(a), RepliesTo(most), ReplyTo(last, 0));
    }
  }

  lemma {:induction false} AskedByAllConcat(a: seq<string>, b: seq<string>)
    ensures AskedByAll(a + b) == AskedByAll(a) + AskedByAll(b)
  {
    if b == [] {
      assert a + b == a;
    } else {
      var most, last := b[..|b| - 1], b[|b| - 1];
      AskedByAllConcat(a, most);
      assert (a + b)[..|a + b| - 1] == a + most;
      F.Regroup(AskedByAll(a), AskedByAll(most), Listing(AskedBy(last)));
    }
  }

  // ---------- One turn ----------

  // What a step adds to a conversation: chunks received, lines handled, replies, requests.
  datatype Turn = Turn(chunks: seq<string>, lines: seq<string>, said: seq<Reply>, asked: seq<Demand>)

  const SILENCE := Turn([], [], [], [])

  function Then(a: Turn, b: Turn): Turn {
    Turn(a.chunks + b.chunks, a.lines + b.lines, a.said + b.said, a.asked + b.asked)
  }

  // A conversation so far, as its history has it.
  function TalkIn(hist: Histories, q: SessionRef): Turn {
    if q in hist then Turn(hist[q].chunks, hist[q].lines, Direct(hist[q].queued), []) else SILENCE
  }

  // The step from `s` to `r` is a turn of the connection `ref`, and of nobody else.
  ghost predicate Takes(s: ServerState, r: ServerState, ref: SessionRef, turn: Turn) {
    && r.hist.Keys == s.hist.Keys
    && |s.jobs| <= |r.jobs| && r.jobs[..|s.jobs|] == s.jobs
    && forall q :: TakesFor(s, r, q, Share(ref, turn, q))
  }

  function Share(ref: SessionRef, turn: Turn, q: SessionRef): Turn {
    if q == ref then turn else SILENCE
  }

  ghost predicate TakesFor(s: ServerState, r: ServerState, q: SessionRef, turn: Turn)
    requires |s.jobs| <= |r.jobs|
  {
    && TalkIn(r.hist, q) == Then(TalkIn(s.hist, q), turn.(asked := []))
    && Demands(r.jobs[|s.jobs|..], q) == turn.asked
  }

  lemma InTurn(a: ServerState, b: ServerState, c: ServerState, ref: SessionRef, x: Turn, y: Turn)
    requires Takes(a, b, ref, x) && Takes(b, c, ref, y)
    ensures Takes(a, c, ref, Then(x, y))
  {
    assert c.jobs[|a.jobs|..] == b.jobs[|a.jobs|..] + c.jobs[|b.jobs|..];
    forall q ensures TakesFor(a, c, q, Share(ref, Then(x, y), q)) {
      assert TakesFor(a, b, q, Share(ref, x, q)) && TakesFor(b, c, q, Share(ref, y, q));
      InTurnFor(a, b, c, q, Share(ref, x, q), Share(ref, y, q));
      assert Then(SILENCE, SILENCE) == SILENCE;
    }
  }

  lemma InTurnFor(a: ServerState, b: ServerState, c: ServerState, q: SessionRef, x: Turn, y: Turn)
    requires |a.jobs| <= |b.jobs| <= |c.jobs|
    requires c.jobs[|a.jobs|..] == b.jobs[|a.jobs|..] + c.jobs[|b.jobs|..]
    requires TakesFor(a, b, q, x) && TakesFor(b, c, q, y)
    ensures TakesFor(a, c, q, Then(x, y))
  {
    DemandsConcat(b.jobs[|a.jobs|..], c.jobs[|b.jobs|..], q);
    ThenAssociates(TalkIn(a.hist, q), x, y);
  }

  lemma ThenAssociates(talk: Turn, x: Turn, y: Turn)
    requires talk.asked == []
    ensures Then(Then(talk, x.(asked := [])), y.(asked := [])) == Then(talk, Then(x, y).(asked := []))
  {
    F.Regroup(talk.chunks, x.chunks, y.chunks);
    F.Regroup(talk.lines, x.lines, y.lines);
    F.Regroup(talk.said, x.said, y.said);
  }

  // A step on which the server says nothing of its own.
  ghost predicate Tacit(s: ServerState, r: ServerState) {
    && r.hist.Keys == s.hist.Keys
    && |s.jobs| <= |r.jobs| && r.jobs[..|s.jobs|] == s.jobs
    && forall q :: TalkIn(r.hist, q) == TalkIn(s.hist, q) && Demands(r.jobs[|s.jobs|..], q) == []
  }

  lemma TacitTakes(s: ServerState, r: ServerState, ref: SessionRef)
    requires Tacit(s, r)
    ensures Takes(s, r, ref, SILENCE)
  {
    forall q ensures TakesFor(s, r, q, Share(ref, SILENCE, q)) {
      assert Then(TalkIn(s.hist, q), SILENCE.(asked := [])) == TalkIn(s.hist, q);
    }
  }

  lemma TacitTwice(a: ServerState, b: ServerState, c: ServerState)
    requires Tacit(a, b) && Tacit(b, c)
    ensures Tacit(a, c)
  {
    assert c.jobs[|a.jobs|..] == b.jobs[|a.jobs|..] + c.jobs[|b.jobs|..];
    forall q ensures TalkIn(c.hist, q) == TalkIn(a.hist, q) && Demands(c.jobs[|a.jobs|..], q) == [] {
      DemandsConcat(b.jobs[|a.jobs|..], c.jobs[|b.jobs|..], q);
    }
  }

  lemma SameJobsTacit(s: ServerState, r: ServerState)
    requires r.hist.Keys == s.hist.Keys && r.jobs == s.jobs && forall q :: TalkIn(r.hist, q) == TalkIn(s.hist, q)
    ensures Tacit(s, r)
  {
    assert r.jobs[|s.jobs|..] == [];
  }

  // ---------- Steps on which the server says nothing of its own ----------

  // Every session has its history.
  ghost predicate Known(s: ServerState) {
    forall fd :: fd in s.sessions ==> s.sessions[fd].fd == fd && RefOf(s.sessions[fd]) in s.hist
  }

  lemma GenerationsKnow(s: ServerState)
    requires Generations(s)
    ensures Known(s)
  {
    forall fd | fd in s.sessions ensures s.sessions[fd].fd == fd && RefOf(s.sessions[fd]) in s.hist {
      assert SessionKnown(s.sessions, s.hist, fd);
    }
  }

  lemma StillKnown(s: ServerState, r: ServerState)
    requires Known(s) && SameSessions(s, r) && r.hist.Keys == s.hist.Keys
    ensures Known(r)
  {
    forall fd | fd in r.sessions ensures r.sessions[fd].fd == fd && RefOf(r.sessions[fd]) in r.hist {
      assert SameButSending(s.sessions[fd], r.sessions[fd]);
    }
  }

  lemma QueueIsTacit(cfg: Config, s: ServerState, ref: SessionRef, reply: Reply)
    requires Known(s) && (reply.InWorld? || reply.Answer?)
    ensures Tacit(s, QueueResponse(cfg, s, ref, reply))
  {
    if SessionMatches(s, ref) {
      assert RefOf(s.sessions[ref.fd]) == ref;
      ReplyIsTacit(s.hist, ref, reply);
    }
    SameJobsTacit(s, QueueResponse(cfg, s, ref, reply));
  }

  lemma ReplyIsTacit(hist: Histories, ref: SessionRef, reply: Reply)
    requires ref in hist && (reply.InWorld? || reply.Answer?)
    ensures forall q :: TalkIn(WithReply(hist, ref, reply), q) == TalkIn(hist, q)
  {
    DirectConcat(hist[ref].queued, [reply]);
    NothingDirect([reply]);
  }

  lemma {:induction false} DeliverIsTacit(cfg: Config, s: ServerState, events: seq<WorldEvent>)
    requires Known(s)
    ensures Tacit(s, Deliver(cfg, s, events)) && Known(Deliver(cfg, s, events))
  {
    if events == [] {
      SameJobsTacit(s, s);
    } else {
      var most, last := events[..|events| - 1], events[|events| - 1];
      DeliverIsTacit(cfg, s, most);
      QueueIsTacit(cfg, Deliver(cfg, s, most), last.receiver, InWorld(last.line));
      TacitTwice(s, Deliver(cfg, s, most), Deliver(cfg, s, events));
      DeliverKeepsSessions(cfg, s, events);
      StillKnown(s, Deliver(cfg, s, events));
    }
  }

  lemma SaveIsTacit(s: ServerState, ref: SessionRef, p: Place)
    requires ref in s.hist
    ensures Tacit(s, SubmitPositionSave(s, ref, p))
  {
    var r := SubmitPositionSave(s, ref, p);
    assert r.jobs[|s.jobs|..] == [r.jobs[|s.jobs|]];
    assert [r.jobs[|s.jobs|]][..0] == [];
  }

  lemma DepartIsTacit(cfg: Config, s: ServerState, ref: SessionRef)
    requires Known(s) && ref in s.hist
    ensures Tacit(s, Depart(cfg, s, ref))
  {
    var left := W.Leave(s.world, cfg.order, ref);
    var s0, s1 := s.(world := left.world), Publish(cfg, s, left);
    DeliverIsTacit(cfg, s0, left.events);
    DepartWithIsTacit(s1, ref, SnapshotOf(s.world, ref));
    TacitTwice(s0, s1, Depart(cfg, s, ref));
  }

  lemma DepartWithIsTacit(s: ServerState, ref: SessionRef, snapshot: PlayerSnapshot)
    requires ref in s.hist
    ensures Tacit(s, DepartWith(s, ref, snapshot))
  {
    if snapshot.account == "" {
      SameJobsTacit(s, s);
    } else {
      SaveIsTacit(s, ref, Place(snapshot.account, snapshot.character, snapshot.x, snapshot.y));
    }
  }

  lemma CloseIsTacit(cfg: Config, s: ServerState, fd: int, ending: Ending)
    requires Known(s)
    ensures Tacit(s, CloseSession(cfg, s, fd, ending))
  {
    if fd in s.sessions {
      var s1 := Depart(cfg, s, RefOf(s.sessions[fd]));
      DepartIsTacit(cfg, s, RefOf(s.sessions[fd]));
      SameJobsTacit(s1, CloseSession(cfg, s, fd, ending));
      TacitTwice(s, s1, CloseSession(cfg, s, fd, ending));
    } else {
      SameJobsTacit(s, s);
    }
  }

  lemma MaybeCloseIsTacit(cfg: Config, s: ServerState, fd: int)
    requires Known(s)
    ensures Tacit(s, MaybeCloseAfterFlush(cfg, s, fd))
  {
    CloseIsTacit(cfg, s, fd, Flushed);
    SameJobsTacit(s, s);
  }

  lemma OnSentIsTacit(cfg: Config, s: ServerState, ref: SessionRef, payload: string, n: nat)
    requires n <= |payload| && Known(s)
    ensures Tacit(s, OnSent(cfg, s, ref, payload, n))
  {
    var s0 := Consume(s, SendToken(ref, payload));
    SameJobsTacit(s, s0);
    if SessionMatches(s0, ref) {
      var session := s0.sessions[ref.fd].(writeInFlight := false);
      var s1 := s0.(sessions := s0.sessions[ref.fd := session]);
      assert RefOf(s.sessions[ref.fd]) == ref;
      SameJobsTacit(s, s1);
      if n == 0 || session.outbox == [] {
        CloseIsTacit(cfg, s1, ref.fd, Dropped);
        TacitTwice(s, s1, OnSent(cfg, s, ref, payload, n));
      } else {
        GoingOnIsTacit(cfg, s1, ref, payload, n);
        TacitTwice(s, s1, OnSent(cfg, s, ref, payload, n));
      }
    }
  }

  lemma GoingOnIsTacit(cfg: Config, s: ServerState, ref: SessionRef, payload: string, n: nat)
    requires n <= |payload| && Known(s) && SessionMatches(s, ref) && ref in s.hist && s.sessions[ref.fd].outbox != []
    ensures Tacit(s, MaybeCloseAfterFlush(cfg, PostSend(Acknowledge(s, ref, payload, n), ref.fd), ref.fd))
  {
    var s1 := PostSend(Acknowledge(s, ref, payload, n), ref.fd);
    SameJobsTacit(s, s1);
    MaybeCloseIsTacit(cfg, s1, ref.fd);
    TacitTwice(s, s1, MaybeCloseAfterFlush(cfg, s1, ref.fd));
  }

  lemma OnCompletionIsTacit(cfg: Config, s: ServerState, c: DbCompletion)
    requires Known(s)
    ensures Tacit(s, OnCompletion(cfg, s, c))
  {
    var s0 := s.(outstanding := s.outstanding - {c.ticket});
    var ref, reply := c.ticket.ref, Answer(c.ticket.id, c.ok, c.line);
    SameJobsTacit(s, s0);
    if c.ticket.notify && SessionMatches(s0, ref) {
      var s1 := Counted(s0, ref.fd);
      AnswerIsTacit(cfg, s1, ref, reply);
      assert OnCompletion(cfg, s, c) == MaybeCloseAfterFlush(cfg, QueueResponse(cfg, s1, ref, reply), ref.fd);
    }
  }

  // One answer less to wait for.
  function Counted(s: ServerState, fd: int): ServerState
    requires fd in s.sessions
  {
    var session := s.sessions[fd];
    if session.pendingDb > 0 then s.(sessions := s.sessions[fd := session.(pendingDb := session.pendingDb - 1)])
    else s
  }

  lemma AnswerIsTacit(cfg: Config, s: ServerState, ref: SessionRef, reply: Reply)
    requires reply.Answer? && Known(s)
    ensures Tacit(s, MaybeCloseAfterFlush(cfg, QueueResponse(cfg, s, ref, reply), ref.fd))
  {
    var s1 := QueueResponse(cfg, s, ref, reply);
    QueueIsTacit(cfg, s, ref, reply);
    QueueKeepsSessions(cfg, s, ref, reply);
    StillKnown(s, s1);
    MaybeCloseIsTacit(cfg, s1, ref.fd);
    TacitTwice(s, s1, MaybeCloseAfterFlush(cfg, s1, ref.fd));
  }

  // ---------- Lines ----------

  // The turn that some lines make.
  function LinesTurn(lines: seq<string>): Turn {
    Turn([], lines, RepliesTo(lines), AskedByAll(lines))
  }

  lemma OneLineTurn(line: string)
    ensures LinesTurn([line]) == Turn([], [line], ReplyTo(line, 0), Listing(AskedBy(line)))
  {
    assert [line][..|[line]| - 1] == [] && [line][|[line]| - 1] == line;
    assert RepliesTo([]) == [] && AskedByAll([]) == [];
  }

  lemma LinesTurnConcat(a: seq<string>, b: seq<string>)
    ensures LinesTurn(a + b) == Then(LinesTurn(a), LinesTurn(b))
  {
    RepliesToConcat(a, b);
    AskedByAllConcat(a, b);
  }

  lemma DirectQueued(s: ServerState, r: ServerState, q: SessionRef, lines: seq<WorldLine>, line: string, own: bool)
    requires Queued(s, r, q, AsReplies(lines) + if own then ReplyTo(line, s.nextRequestId) else [])
    ensures Direct(r.hist[q].queued) == Direct(s.hist[q].queued) + if own then ReplyTo(line, 0) else []
  {
    var replies := if own then ReplyTo(line, s.nextRequestId) else [];
    DirectConcat(s.hist[q].queued, AsReplies(lines) + replies);
    DirectConcat(AsReplies(lines), replies);
    NothingDirect(AsReplies(lines));
    DirectReply(line, s.nextRequestId);
  }

  lemma JobsDemand(
    w: WorldState, id: nat, ref: SessionRef, op: Option<Op>, asked: Option<Demand>, q: SessionRef)
    ensures Demands(JobsFor(w, id, ref, op, asked), q) == if q == ref && asked.Some? then [asked.value] else []
  {
    var jobs := JobsFor(w, id, ref, op, asked);
    assert |jobs| <= 1;
    assert |jobs| == 1 ==> jobs[..0] == [];
  }

  lemma LineTalks(cfg: Config, s: ServerState, ref: SessionRef, line: string, q: SessionRef)
    requires Handling(cfg, s, ref) && !s.terminated && ValidOrder(cfg.order)
    ensures var r := HandleLine(cfg, s, ref, line);
            TalkIn(r.hist, q) == Then(TalkIn(s.hist, q), Share(ref, LinesTurn([line]), q).(asked := []))
  {
    LineRecorded(cfg, s, ref, line, q);
    OneLineTurn(line);
    if q in s.hist {
      LineSaid(cfg, s, ref, line, q);
      TalkGrows(s.hist, HandleLine(cfg, s, ref, line).hist, q, Share(ref, LinesTurn([line]), q));
    }
  }

  lemma TalkGrows(a: Histories, b: Histories, q: SessionRef, turn: Turn)
    requires q in a && q in b && b[q].chunks == a[q].chunks + turn.chunks && b[q].lines == a[q].lines + turn.lines
    requires Direct(b[q].queued) == Direct(a[q].queued) + turn.said
    ensures TalkIn(b, q) == Then(TalkIn(a, q), turn.(asked := []))
  {
  }

  lemma LineRecorded(cfg: Config, s: ServerState, ref: SessionRef, line: string, q: SessionRef)
    requires Handling(cfg, s, ref) && !s.terminated && ValidOrder(cfg.order)
    ensures var r := HandleLine(cfg, s, ref, line);
            && (q in r.hist <==> q in s.hist) && ref in s.hist
            && (q in s.hist ==>
                  && r.hist[q].chunks == s.hist[q].chunks
                  && r.hist[q].lines == if q == ref then s.hist[q].lines + [line] else s.hist[q].lines)
  {
    HandleLineAround(cfg, s, ref, line);
    OthersRecord(s, HandleLine(cfg, s, ref, line), ref, q);
  }

  lemma OthersRecord(s: ServerState, r: ServerState, ref: SessionRef, q: SessionRef)
    requires Around(s, r, ref)
    ensures (q in r.hist <==> q in s.hist) && ref in s.hist
    ensures q in s.hist ==> r.hist[q].chunks == s.hist[q].chunks && (q != ref ==> r.hist[q].lines == s.hist[q].lines)
  {
    assert q in s.hist && q != ref ==> QuietHistory(s.hist[q], r.hist[q]);
  }

  lemma LineSaid(cfg: Config, s: ServerState, ref: SessionRef, line: string, q: SessionRef)
    requires Core(cfg, s) && IsLive(s, ref) && q in s.hist
    ensures var r := HandleLine(cfg, s, ref, line);
            && q in r.hist
            && Direct(r.hist[q].queued) == Direct(s.hist[q].queued) + if q == ref then ReplyTo(line, 0) else []
  {
    LineIsAnswered(cfg, s, ref, line, q);
    DirectQueued(s, HandleLine(cfg, s, ref, line), q,
                 Tells(s.world, cfg.order, LineOp(ref, line), IsLive(s, q), q), line, q == ref);
  }

  lemma LineDemands(cfg: Config, s: ServerState, ref: SessionRef, line: string)
    requires SessionMatches(s, ref)
    ensures var r := HandleLine(cfg, s, ref, line);
            && |s.jobs| <= |r.jobs| && r.jobs[..|s.jobs|] == s.jobs
            && forall q :: Demands(r.jobs[|s.jobs|..], q) == Share(ref, LinesTurn([line]), q).asked
  {
    LineSubmits(cfg, s, ref, line);
    OneLineTurn(line);
    forall q {
      JobsDemand(s.world, s.nextRequestId, ref, LineOp(ref, line), AskedBy(line), q);
    }
  }

  lemma LineTakes(cfg: Config, s: ServerState, ref: SessionRef, line: string)
    requires Handling(cfg, s, ref) && !s.terminated && ValidOrder(cfg.order)
    ensures Takes(s, HandleLine(cfg, s, ref, line), ref, LinesTurn([line]))
  {
    LineDemands(cfg, s, ref, line);
    HandleLineAround(cfg, s, ref, line);
    forall q ensures TakesFor(s, HandleLine(cfg, s, ref, line), q, Share(ref, LinesTurn([line]), q)) {
      LineTalks(cfg, s, ref, line, q);
    }
  }

  lemma CutIsTacit(s: ServerState, ref: SessionRef, n: nat)
    requires IsLive(s, ref) && n < |s.sessions[ref.fd].input|
    ensures Tacit(s, CutLine(s, ref, n))
  {
    SameJobsTacit(s, CutLine(s, ref, n));
  }

  lemma SilenceFirst(lines: seq<string>)
    ensures Then(SILENCE, LinesTurn(lines)) == LinesTurn(lines) && LinesTurn([]) == SILENCE
  {
  }

  // One line out of the buffer.
  lemma NextLineTakes(cfg: Config, s: ServerState, ref: SessionRef, n: nat)
    requires Handling(cfg, s, ref) && !s.terminated && ValidOrder(cfg.order) && n < |s.sessions[ref.fd].input|
    ensures Takes(s, NextLine(cfg, s, ref, n), ref, LinesTurn([s.sessions[ref.fd].input[..n]]))
  {
    var line, cut := s.sessions[ref.fd].input[..n], CutLine(s, ref, n);
    CutLineKeeps(cfg, s, ref, n);
    CutIsTacit(s, ref, n);
    TacitTakes(s, cut, ref);
    LineTakes(cfg, cut, ref, line);
    InTurn(s, cut, NextLine(cfg, s, ref, n), ref, SILENCE, LinesTurn([line]));
    SilenceFirst([line]);
  }

  // The loop over the buffered lines: it handles some, and each as it calls for.
  lemma {:induction false} LoopTakes(cfg: Config, s: ServerState, ref: SessionRef)
    requires Handling(cfg, s, ref) && !s.terminated && ValidOrder(cfg.order) && !s.sessions[ref.fd].closeAfterFlush
    ensures exists lines :: Takes(s, ProcessLines(cfg, s, ref), ref, LinesTurn(lines))
    decreases |s.sessions[ref.fd].input|
  {
    match F.FindNewline(s.sessions[ref.fd].input)
    case None =>
      SameJobsTacit(s, s);
      TacitTakes(s, s, ref);
      SilenceFirst([]);
    case Some(n) =>
      var s1 := NextLine(cfg, s, ref, n);
      var line := s.sessions[ref.fd].input[..n];
      NextLineTakes(cfg, s, ref, n);
      NextLineAround(cfg, s, ref, n);
      if !(s1.terminated || s1.sessions[ref.fd].closeAfterFlush) {
        LoopTakes(cfg, s1, ref);
        var lines :| Takes(s1, ProcessLines(cfg, s1, ref), ref, LinesTurn(lines));
        InTurn(s, s1, ProcessLines(cfg, s1, ref), ref, LinesTurn([line]), LinesTurn(lines));
        LinesTurnConcat([line], lines);
      }
  }

  // What the server says of the bytes left over after the lines: that they are too many, or nothing.
  function Refusal(cfg: Config, input: string): seq<Reply> {
    if |input| > cfg.maxLine then [LineTooLong] else []
  }

  lemma FinishTakes(cfg: Config, s: ServerState, ref: SessionRef)
    requires Core(cfg, s) && IsLive(s, ref)
    ensures Takes(s, FinishRecv(cfg, s, ref), ref, Turn([], [], Refusal(cfg, s.sessions[ref.fd].input), []))
  {
    if |s.sessions[ref.fd].input| > cfg.maxLine {
      RefusalTakes(cfg, s, ref);
    } else {
      NothingToFlush(cfg, s, ref.fd);
      SameJobsTacit(s, FinishRecv(cfg, s, ref));
      TacitTakes(s, FinishRecv(cfg, s, ref), ref);
    }
  }

  lemma RefusalTakes(cfg: Config, s: ServerState, ref: SessionRef)
    requires Core(cfg, s) && IsLive(s, ref)
    ensures var q := QueueResponse(cfg, s, ref, LineTooLong);
            && ref.fd in q.sessions
            && Takes(s, MaybeCloseAfterFlush(cfg, CloseAfterFlush(q, ref), ref.fd), ref,
                     Turn([], [], [LineTooLong], []))
  {
    OpenIsPrefix(cfg, s, ref);
    QueueKeepsCore(cfg, s, ref, LineTooLong);
    QueuedIsInFlight(cfg, s, ref, LineTooLong);
    QueueIsEnqueue(cfg, s, ref, LineTooLong);
    var q := QueueResponse(cfg, s, ref, LineTooLong);
    CloseAfterFlushKeepsCore(cfg, q, ref);
    NothingToFlush(cfg, CloseAfterFlush(q, ref), ref.fd);
    ReplyTakes(s, CloseAfterFlush(q, ref), ref, LineTooLong);
  }

  // A step that only queues one reply of the server's own.
  lemma ReplyTakes(s: ServerState, r: ServerState, ref: SessionRef, reply: Reply)
    requires ref in s.hist && r.jobs == s.jobs && r.hist == WithReply(s.hist, ref, reply)
    requires !reply.InWorld? && !reply.Answer? && !reply.Pending?
    ensures Takes(s, r, ref, Turn([], [], [reply], []))
  {
    var turn := Turn([], [], [reply], []);
    assert r.jobs[|s.jobs|..] == [];
    forall q ensures TakesFor(s, r, q, Share(ref, turn, q)) {
      if q == ref {
        DirectConcat(s.hist[ref].queued, [reply]);
        assert [reply][..|[reply]| - 1] == [];
        TalkGrows(s.hist, r.hist, q, turn);
      } else {
        assert Then(TalkIn(s.hist, q), SILENCE.(asked := [])) == TalkIn(s.hist, q);
      }
    }
  }

  // ---------- A chunk ----------

  // What a chunk adds: its lines, each with its reply, and the refusal of what is left over.
  function ChunkTurn(cfg: Config, chunk: string, lines: seq<string>, rest: string): Turn {
    Turn([chunk], lines, RepliesTo(lines) + Refusal(cfg, rest), AskedByAll(lines))
  }

  lemma ChunkTurnIs(cfg: Config, chunk: string, lines: seq<string>, rest: string)
    ensures Then(Then(Turn([chunk], [], [], []), LinesTurn(lines)), Turn([], [], Refusal(cfg, rest), [])) ==
            ChunkTurn(cfg, chunk, lines, rest)
  {
    ThenOnly(chunk, lines, RepliesTo(lines), AskedByAll(lines), Refusal(cfg, rest));
  }

  lemma ThenOnly(chunk: string, lines: seq<string>, said: seq<Reply>, asked: seq<Demand>, more: seq<Reply>)
    ensures Then(Then(Turn([chunk], [], [], []), Turn([], lines, said, asked)), Turn([], [], more, [])) ==
            Turn([chunk], lines, said + more, asked)
  {
    assert [chunk] + [] + [] == [chunk];
    assert [] + lines + [] == lines && [] + said + more == said + more && [] + asked + [] == asked;
  }

  lemma AppendTakes(cfg: Config, s: ServerState, ref: SessionRef, chunk: string)
    requires IsLive(s, ref) && ref in s.hist
    ensures Takes(s, Append(s, ref, chunk), ref, Turn([chunk], [], [], []))
  {
    var r, turn := Append(s, ref, chunk), Turn([chunk], [], [], []);
    assert r.jobs[|s.jobs|..] == [];
    forall q ensures TakesFor(s, r, q, Share(ref, turn, q)) {
      if q == ref {
        TalkGrows(s.hist, r.hist, q, turn);
      } else {
        assert Then(TalkIn(s.hist, q), SILENCE.(asked := [])) == TalkIn(s.hist, q);
      }
    }
  }

  // The lines of a chunk, and what is left over after them.
  lemma ChunkTakes(cfg: Config, s: ServerState, ref: SessionRef, chunk: string)
    requires Settled(cfg, s) && IsLive(s, ref) && ref in s.hist && !s.terminated && !s.sessions[ref.fd].closeAfterFlush
    requires ValidOrder(cfg.order)
    ensures var s1 := Append(s, ref, chunk);
            var s2 := ProcessLines(cfg, s1, ref);
            && Handling(cfg, s2, ref)
            && exists lines ::
                 Takes(s, FinishRecv(cfg, s2, ref), ref, ChunkTurn(cfg, chunk, lines, s2.sessions[ref.fd].input))
  {
    var s1 := Append(s, ref, chunk);
    AppendIs(cfg, s, ref, chunk);
    AppendKeeps(cfg, s, ref, chunk);
    AppendTakes(cfg, s, ref, chunk);
    LoopTakes(cfg, s1, ref);
    ProcessLinesAround(cfg, s1, ref);
    var s2 := ProcessLines(cfg, s1, ref);
    var lines :| Takes(s1, s2, ref, LinesTurn(lines));
    InTurn(s, s1, s2, ref, Turn([chunk], [], [], []), LinesTurn(lines));
    RestTakes(cfg, s, s2, ref, chunk, lines);
  }

  lemma RestTakes(cfg: Config, s: ServerState, s2: ServerState, ref: SessionRef, chunk: string, lines: seq<string>)
    requires Core(cfg, s2) && IsLive(s2, ref)
    requires Takes(s, s2, ref, Then(Turn([chunk], [], [], []), LinesTurn(lines)))
    ensures Takes(s, FinishRecv(cfg, s2, ref), ref, ChunkTurn(cfg, chunk, lines, s2.sessions[ref.fd].input))
  {
    var rest := s2.sessions[ref.fd].input;
    FinishTakes(cfg, s2, ref);
    InTurn(s, s2, FinishRecv(cfg, s2, ref), ref, Then(Turn([chunk], [], [], []), LinesTurn(lines)),
           Turn([], [], Refusal(cfg, rest), []));
    ChunkTurnIs(cfg, chunk, lines, rest);
  }

  // The bytes kept of some chunks.
  function Kept(cfg: Config, chunks: seq<string>): string {
    F.FeedAll(chunks, cfg.maxLine, QuitLine()).input
  }

  // What a receive adds to its connection's conversation.
  ghost predicate ReceiveTurn(cfg: Config, s: ServerState, ref: SessionRef, chunk: string, turn: Turn) {
    if !IsLive(s, ref) || chunk == "" then turn == SILENCE
    else
      && ref in s.hist && Refusal(cfg, Kept(cfg, s.hist[ref].chunks)) == []
      && exists lines :: turn == ChunkTurn(cfg, chunk, lines, Kept(cfg, s.hist[ref].chunks + [chunk]))
  }

  lemma ReceiveTakes(cfg: Config, s: ServerState, ref: SessionRef, chunk: string)
    requires Inv(cfg, s) && RecvToken(ref) in s.tokens && |chunk| <= cfg.recvBuffer && ValidOrder(cfg.order)
    requires !OnRecv(cfg, s, ref, chunk).terminated
    ensures exists turn :: ReceiveTurn(cfg, s, ref, chunk, turn) && Takes(s, OnRecv(cfg, s, ref, chunk), ref, turn)
  {
    var s0, r := Consume(s, RecvToken(ref)), OnRecv(cfg, s, ref, chunk);
    SameJobsTacit(s, s0);
    if !IsLive(s, ref) || chunk == "" {
      GenerationsKnow(s);
      CloseIsTacit(cfg, s0, ref.fd, Dropped);
      TacitTwice(s, s0, r);
      TacitTakes(s, r, ref);
      assert ReceiveTurn(cfg, s, ref, chunk, SILENCE);
    } else {
      HeardTakes(cfg, s, ref, chunk);
    }
  }

  lemma HeardTakes(cfg: Config, s: ServerState, ref: SessionRef, chunk: string)
    requires Inv(cfg, s) && RecvToken(ref) in s.tokens && |chunk| <= cfg.recvBuffer && ValidOrder(cfg.order)
    requires !OnRecv(cfg, s, ref, chunk).terminated && IsLive(s, ref) && chunk != ""
    ensures exists turn :: ReceiveTurn(cfg, s, ref, chunk, turn) && Takes(s, OnRecv(cfg, s, ref, chunk), ref, turn)
  {
    var s0 := Consume(s, RecvToken(ref));
    ReadySoFar(cfg, s, ref);
    FedAfter(cfg, s, ref, chunk);
    ChunkTakes(cfg, s0, ref, chunk);
    var s2 := ProcessLines(cfg, Append(s0, ref, chunk), ref);
    var lines :| Takes(s0, FinishRecv(cfg, s2, ref), ref, ChunkTurn(cfg, chunk, lines, s2.sessions[ref.fd].input));
    IsReceiveTurn(cfg, s, ref, chunk, lines);
    SameBefore(s0, s, OnRecv(cfg, s, ref, chunk), ref, ChunkTurn(cfg, chunk, lines, s2.sessions[ref.fd].input));
  }

  lemma SameBefore(s0: ServerState, s: ServerState, r: ServerState, ref: SessionRef, turn: Turn)
    requires s0.hist == s.hist && s0.jobs == s.jobs && Takes(s0, r, ref, turn)
    ensures Takes(s, r, ref, turn)
  {
    forall q ensures TakesFor(s, r, q, Share(ref, turn, q)) {
      assert TakesFor(s0, r, q, Share(ref, turn, q));
    }
  }

  lemma IsReceiveTurn(cfg: Config, s: ServerState, ref: SessionRef, chunk: string, lines: seq<string>)
    requires IsLive(s, ref) && chunk != "" && ref in s.hist && |Kept(cfg, s.hist[ref].chunks)| <= cfg.maxLine
    ensures ReceiveTurn(cfg, s, ref, chunk, ChunkTurn(cfg, chunk, lines, Kept(cfg, s.hist[ref].chunks + [chunk])))
  {
  }

  // Before a chunk the connection still reads.
  lemma ReadySoFar(cfg: Config, s: ServerState, ref: SessionRef)
    requires Inv(cfg, s) && RecvToken(ref) in s.tokens && IsLive(s, ref)
    ensures var s0 := Consume(s, RecvToken(ref));
            && Settled(cfg, s0) && !s0.terminated && IsLive(s0, ref) && !s0.sessions[ref.fd].closeAfterFlush
            && ref in s0.hist && Reading(cfg, s0, {ref}) && FramedSession(cfg, s0.sessions[ref.fd], s0.hist[ref])
            && s0.hist[ref].lines == FramerOf(cfg, s0.hist[ref]).lines
            && |Kept(cfg, s.hist[ref].chunks)| <= cfg.maxLine
  {
    ConsumeRecv(cfg, s, ref);
    OwnReceive(s, ref, ref.fd);
    assert FramedSession(cfg, s.sessions[ref.fd], s.hist[ref]);
    F.ChunksDoNotMatter(s.hist[ref].chunks, cfg.maxLine, QuitLine());
  }

  // After its lines the connection's buffer is what the framing keeps.
  lemma FedAfter(cfg: Config, s: ServerState, ref: SessionRef, chunk: string)
    requires Inv(cfg, s) && RecvToken(ref) in s.tokens && |chunk| <= cfg.recvBuffer && ValidOrder(cfg.order)
    requires IsLive(s, ref) && chunk != "" && !OnRecv(cfg, s, ref, chunk).terminated
    ensures ref in s.hist
    ensures var s1 := Append(Consume(s, RecvToken(ref)), ref, chunk);
            var s2 := ProcessLines(cfg, s1, ref);
            && IsLive(s2, ref) && !s2.terminated && OnRecv(cfg, s, ref, chunk) == FinishRecv(cfg, s2, ref)
            && s2.sessions[ref.fd].input == Kept(cfg, s.hist[ref].chunks + [chunk])
  {
    var s0 := Consume(s, RecvToken(ref));
    var s1 := Append(s0, ref, chunk);
    ReadySoFar(cfg, s, ref);
    ChunkHandled(cfg, s0, ref, chunk);
    AppendIs(cfg, s0, ref, chunk);
    AppendKeeps(cfg, s0, ref, chunk);
    ProcessLinesAround(cfg, s1, ref);
  }

  // ---------- Whole runs ----------

  // A conversation as it should be: the greeting, the reply to each line, and the refusal of an overlong
  // rest; and of the database exactly what the lines ask.
  ghost predicate Fair(cfg: Config, talk: Turn, asked: seq<Demand>) {
    && talk.said == [Hello] + RepliesTo(talk.lines) + Refusal(cfg, Kept(cfg, talk.chunks))
    && asked == AskedByAll(talk.lines)
  }

  lemma FairGoesOn(cfg: Config, talk: Turn, asked: seq<Demand>, chunk: string, lines: seq<string>)
    requires Fair(cfg, talk, asked) && Refusal(cfg, Kept(cfg, talk.chunks)) == []
    ensures var turn := ChunkTurn(cfg, chunk, lines, Kept(cfg, talk.chunks + [chunk]));
            Fair(cfg, Then(talk, turn.(asked := [])), asked + turn.asked)
  {
    RepliesToConcat(talk.lines, lines);
    AskedByAllConcat(talk.lines, lines);
    var refusal := Refusal(cfg, Kept(cfg, talk.chunks + [chunk]));
    assert [Hello] + RepliesTo(talk.lines) + [] == [Hello] + RepliesTo(talk.lines);
    F.Regroup([Hello], RepliesTo(talk.lines), RepliesTo(lines));
    F.Regroup([Hello] + RepliesTo(talk.lines), RepliesTo(lines), refusal);
  }

  ghost predicate FairFor(cfg: Config, hist: Histories, jobs: seq<DbJob>, q: SessionRef) {
    if q in hist then Fair(cfg, TalkIn(hist, q), Demands(jobs, q)) else Demands(jobs, q) == []
  }

  ghost predicate AllFair(cfg: Config, s: SystemState) {
    forall q :: FairFor(cfg, s.server.hist, s.submitted, q)
  }

  // The jobs submitted once the server has made a step.
  lemma ServeDemands(s: SystemState, server: ServerState, q: SessionRef)
    requires |s.server.jobs| <= |server.jobs|
    ensures Demands(Serve(s, server).submitted, q) ==
            Demands(s.submitted, q) + Demands(server.jobs[|s.server.jobs|..], q)
  {
    DemandsConcat(s.submitted, server.jobs[|s.server.jobs|..], q);
  }

  lemma TacitStaysFair(cfg: Config, s: SystemState, server: ServerState)
    requires AllFair(cfg, s) && Tacit(s.server, server)
    ensures AllFair(cfg, Serve(s, server))
  {
    var r := Serve(s, server);
    forall q ensures FairFor(cfg, r.server.hist, r.submitted, q) {
      ServeDemands(s, server, q);
      assert Demands(s.submitted, q) + [] == Demands(s.submitted, q);
      assert FairFor(cfg, s.server.hist, s.submitted, q);
    }
  }

  lemma ReceiveStaysFair(cfg: Config, s: SystemState, ref: SessionRef, chunk: string)
    requires AllFair(cfg, s) && Inv(cfg, s.server) && Enabled(cfg, s, Receive(ref, chunk)) && ValidOrder(cfg.order)
    requires !OnRecv(cfg, s.server, ref, chunk).terminated
    ensures AllFair(cfg, Next(cfg, s, Receive(ref, chunk)))
  {
    ReceiveTakes(cfg, s.server, ref, chunk);
    var server := OnRecv(cfg, s.server, ref, chunk);
    var turn :| ReceiveTurn(cfg, s.server, ref, chunk, turn) && Takes(s.server, server, ref, turn);
    var r := Serve(s, server);
    forall q ensures FairFor(cfg, r.server.hist, r.submitted, q) {
      assert TakesFor(s.server, server, q, Share(ref, turn, q));
      ServeDemands(s, server, q);
      assert FairFor(cfg, s.server.hist, s.submitted, q);
      TurnStaysFair(cfg, s.server, ref, chunk, turn, Demands(s.submitted, q), q);
    }
  }

  lemma TurnStaysFair(
    cfg: Config, s: ServerState, ref: SessionRef, chunk: string, turn: Turn, asked: seq<Demand>, q: SessionRef)
    requires ReceiveTurn(cfg, s, ref, chunk, turn)
    requires if q in s.hist then Fair(cfg, TalkIn(s.hist, q), asked) else asked == []
    ensures var more := Share(ref, turn, q);
            if q in s.hist then Fair(cfg, Then(TalkIn(s.hist, q), more.(asked := [])), asked + more.asked)
            else asked + more.asked == []
  {
    if q == ref && turn != SILENCE {
      var lines :| turn == ChunkTurn(cfg, chunk, lines, Kept(cfg, s.hist[ref].chunks + [chunk]));
      FairGoesOn(cfg, TalkIn(s.hist, ref), asked, chunk, lines);
    } else {
      assert Then(TalkIn(s.hist, q), SILENCE.(asked := [])) == TalkIn(s.hist, q) && asked + [] == asked;
    }
  }

  lemma AcceptStaysFair(cfg: Config, s: SystemState, fd: int)
    requires AllFair(cfg, s) && Core(cfg, s.server) && fd !in s.server.openFds
    ensures AllFair(cfg, Serve(s, OnAccept(cfg, s.server, Some(fd))))
  {
    AcceptGreets(cfg, s.server, fd);
    GreetingStaysFair(cfg, s, OnAccept(cfg, s.server, Some(fd)), SessionRef(fd, s.server.nextGeneration));
  }

  lemma GreetingStaysFair(cfg: Config, s: SystemState, server: ServerState, ref: SessionRef)
    requires AllFair(cfg, s) && ref !in s.server.hist && server.jobs == s.server.jobs
    requires server.hist == s.server.hist[ref := History([], [], [Hello], "", [], false, Open)]
    ensures AllFair(cfg, Serve(s, server))
  {
    assert server.jobs[|s.server.jobs|..] == [];
    assert s.submitted + [] == s.submitted;
    forall q ensures FairFor(cfg, server.hist, s.submitted, q) {
      assert FairFor(cfg, s.server.hist, s.submitted, q);
      if q == ref {
        NewcomerIsFair(cfg, server.hist, q);
      }
    }
  }

  lemma AcceptGreets(cfg: Config, s: ServerState, fd: int)
    requires Core(cfg, s) && fd !in s.openFds
    ensures var ref, r := SessionRef(fd, s.nextGeneration), OnAccept(cfg, s, Some(fd));
            && ref !in s.hist && r.jobs == s.jobs
            && r.hist == s.hist[ref := History([], [], [Hello], "", [], false, Open)]
  {
    AcceptIsConnect(cfg, s, fd);
    AcceptIsFresh(cfg, s, fd);
    FirstWords(cfg, Connected(Consume(s, AcceptToken), fd), SessionRef(fd, s.nextGeneration));
  }

  lemma FirstWords(cfg: Config, c: ServerState, ref: SessionRef)
    requires IsLive(c, ref) && ref in c.hist && c.hist[ref] == History([], [], [], "", [], false, Open)
    ensures var r := QueueResponse(cfg, c, ref, Hello);
            r.hist == c.hist[ref := c.hist[ref].(queued := [Hello])] && r.jobs == c.jobs
  {
    assert [] + [Hello] == [Hello];
  }

  lemma NewcomerIsFair(cfg: Config, hist: Histories, q: SessionRef)
    requires q in hist && hist[q].chunks == [] && hist[q].lines == [] && hist[q].queued == [Hello]
    ensures Fair(cfg, TalkIn(hist, q), [])
  {
    assert [Hello][..|[Hello]| - 1] == [];
    assert Kept(cfg, []) == "";
  }

  lemma StepStaysFair(cfg: Config, s: SystemState, step: SystemStep)
    requires Inv(cfg, s.server) && AllFair(cfg, s) && Enabled(cfg, s, step) && ValidOrder(cfg.order)
    requires !Next(cfg, s, step).server.terminated
    ensures AllFair(cfg, Next(cfg, s, step))
  {
    GenerationsKnow(s.server);
    match step
    case Accept(fd) =>
      if fd.Some? {
        AcceptStaysFair(cfg, s, fd.value);
      } else {
        SameJobsTacit(s.server, OnAccept(cfg, s.server, None));
        TacitStaysFair(cfg, s, OnAccept(cfg, s.server, None));
      }
    case Receive(ref, chunk) => ReceiveStaysFair(cfg, s, ref, chunk);
    case Sent(ref, payload, n) =>
      OnSentIsTacit(cfg, s.server, ref, payload, n);
      TacitStaysFair(cfg, s, OnSent(cfg, s.server, ref, payload, n));
    case PopCompletion => PopStaysFair(cfg, s);
    case _ => SilentStaysFair(cfg, s, step);
  }

  lemma PopStaysFair(cfg: Config, s: SystemState)
    requires AllFair(cfg, s) && Known(s.server) && Enabled(cfg, s, PopCompletion)
    ensures AllFair(cfg, Next(cfg, s, PopCompletion))
  {
    var server := OnCompletion(cfg, s.server, s.completions[0]);
    OnCompletionIsTacit(cfg, s.server, s.completions[0]);
    forall q ensures FairFor(cfg, server.hist, s.submitted, q) {
      assert FairFor(cfg, s.server.hist, s.submitted, q);
    }
  }

  lemma SilentStaysFair(cfg: Config, s: SystemState, step: SystemStep)
    requires AllFair(cfg, s) && Enabled(cfg, s, step)
    requires !step.Accept? && !step.Receive? && !step.Sent? && !step.PopCompletion?
    ensures AllFair(cfg, Next(cfg, s, step))
  {
    var r := Next(cfg, s, step);
    forall q ensures FairFor(cfg, r.server.hist, r.submitted, q) {
      assert FairFor(cfg, s.server.hist, s.submitted, q);
    }
  }

  lemma {:induction false} RunStaysFair(cfg: Config, workers: nat, database: Database, steps: seq<SystemStep>)
    requires Executes(cfg, Start(workers, database), steps) && ValidOrder(cfg.order)
    requires !After(cfg, Start(workers, database), steps).server.terminated
    ensures AllFair(cfg, After(cfg, Start(workers, database), steps))
  {
    var start := Start(workers, database);
    if steps == [] {
    } else {
      var most, step := steps[..|steps| - 1], steps[|steps| - 1];
      RunStaysFair(cfg, workers, database, most);
      StartInv(cfg, workers, database);
      RunKeepsInv(cfg, start, most);
      StepStaysFair(cfg, After(cfg, start, most), step);
    }
  }

  /** In every reachable state, for every connection: of its own the server has said HELLO and then, in the
      order of the lines it handled, exactly what each of them calls for: the refusal of a line that was
      not accepted, the announcement of a request, or BYE; and last that a line is too long, iff what is
      left over after the lines exceeds the limit.  And the jobs submitted for the connection, to be
      answered, are exactly the requests that its lines spell, in order, each with the operation its
      command names and the words after the command. */
  lemma EveryLineIsAnswered(cfg: Config, s: SystemState, ref: SessionRef)
    requires Running(cfg, s) && ref in s.server.hist
    ensures var h := s.server.hist[ref];
            && Direct(h.queued) ==
               [Hello] + RepliesTo(h.lines) +
               (if |F.FeedAll(h.chunks, cfg.maxLine, QuitLine()).input| > cfg.maxLine then [LineTooLong] else [])
            && Demands(s.submitted, ref) == AskedByAll(h.lines)
  {
    var workers, database :| ReachableFrom(cfg, workers, database, s);
    var steps :| Executes(cfg, Start(workers, database), steps) && s == After(cfg, Start(workers, database), steps);
    RunStaysFair(cfg, workers, database, steps);
    assert FairFor(cfg, s.server.hist, s.submitted, ref);
  }
}

/** Every completion handler keeps the whole invariant. */
module ServerHandlers {
  import opened Decimal
  import opened World
  import F = Framing
  import opened Server
  import opened ServerCore
  import opened ServerSteps
  import opened ServerClosing
  import opened ServerSends
  import opened ServerLines
  import opened ServerPlaces
  import opened ServerViews
  import opened ServerRecv
  import opened ServerInvariant

  // ---------- Accept ----------

  lemma ConnectedKeepsPlaces(cfg: Config, s: ServerState, fd: int)
    requires Core(cfg, s) && Places(s) && ViewsIn(s.world, s.hist) && fd !in s.openFds
    ensures Places(Connected(s, fd)) && ViewsIn(Connected(s, fd).world, Connected(s, fd).hist)
  {
    AcceptIsFresh(cfg, s, fd);
    NewcomerIsNowhere(s, fd);
  }

  lemma NewcomerIsNowhere(s: ServerState, fd: int)
    requires Places(s) && ViewsIn(s.world, s.hist) && fd !in s.sessions && SessionRef(fd, s.nextGeneration) !in s.hist
    ensures Places(Connected(s, fd)) && ViewsIn(Connected(s, fd).world, Connected(s, fd).hist)
  {
    var r := Connected(s, fd);
    var ref := SessionRef(fd, s.nextGeneration);
    assert forall q :: q in s.world.players ==> LiveIn(s.sessions, q);
    forall q | q in r.hist
      ensures StandsRight(r.world, r.hist[q], q) && SavedRight(r.hist[q], q) && SeesRight(r.world, r.hist[q], q)
    {
      if q in s.hist {
        assert StandsRight(s.world, s.hist[q], q) && SavedRight(s.hist[q], q) && SeesRight(s.world, s.hist[q], q);
      }
    }
  }

  lemma ConnectedKeepsReading(cfg: Config, s: ServerState, fd: int)
    requires Core(cfg, s) && Reading(cfg, s, {}) && fd !in s.openFds
    ensures Reading(cfg, Connected(s, fd), {SessionRef(fd, s.nextGeneration)})
  {
    AcceptIsFresh(cfg, s, fd);
    var r := Connected(s, fd);
    var ref := SessionRef(fd, s.nextGeneration);
    assert RecvToken(ref) !in s.tokens;
    forall g | g in r.sessions && g != fd ensures RefOf(r.sessions[g]) in s.hist && RefOf(r.sessions[g]) != ref {
      assert SessionKnown(s.sessions, s.hist, g);
    }
  }

  // The new connection reads once its first receive is posted.
  lemma PostRecvReads(cfg: Config, s: ServerState, ref: SessionRef)
    requires Generations(s) && Reading(cfg, s, {ref}) && IsLive(s, ref) && !s.sessions[ref.fd].closeAfterFlush
    requires ref in s.hist && s.hist[ref].lines == FramerOf(cfg, s.hist[ref]).lines
    requires FramedSession(cfg, s.sessions[ref.fd], s.hist[ref])
    ensures Reading(cfg, PostRecv(s, ref), {})
  {
    var r := PostRecv(s, ref);
    assert SessionKnown(s.sessions, s.hist, ref.fd);
    forall fd | fd in r.sessions
      ensures r.tokens[RecvToken(RefOf(r.sessions[fd]))] == if r.sessions[fd].closeAfterFlush then 0 else 1
      ensures RefOf(r.sessions[fd]) == ref ==> fd == ref.fd
    {
      assert SessionKnown(s.sessions, s.hist, fd);
    }
  }

  lemma ConnectedIsReady(cfg: Config, s: ServerState, fd: int)
    requires Settled(cfg, s) && Reading(cfg, s, {}) && fd !in s.openFds
    ensures Settled(cfg, Connected(s, fd)) && Reading(cfg, Connected(s, fd), {SessionRef(fd, s.nextGeneration)})
  {
    ConnectedKeepsGenerations(cfg, s, fd);
    ConnectedKeepsSending(cfg, s, fd);
    ConnectedKeepsRest(cfg, s, fd);
    ConnectedKeepsPlaces(cfg, s, fd);
    ConnectedKeepsReading(cfg, s, fd);
  }

  lemma GreetedIsReady(cfg: Config, s: ServerState, fd: int)
    requires Settled(cfg, s) && Reading(cfg, s, {}) && !s.terminated && fd !in s.openFds
    ensures var ref := SessionRef(fd, s.nextGeneration);
            var r := PostRecv(QueueResponse(cfg, Connected(s, fd), ref, Hello), ref);
            Settled(cfg, r) && Reading(cfg, r, {}) && !r.terminated && SameOtherTokensBut(s, r, ref)
  {
    ConnectedIsReady(cfg, s, fd);
    NewcomerIsGreeted(cfg, Connected(s, fd), SessionRef(fd, s.nextGeneration));
  }

  lemma NewcomerIsGreeted(cfg: Config, c: ServerState, ref: SessionRef)
    requires Settled(cfg, c) && Reading(cfg, c, {ref}) && !c.terminated && IsLive(c, ref) && ref in c.hist
    requires c.hist[ref] == History([], [], [], "", [], false, Open)
    requires c.sessions[ref.fd].input == "" && !c.sessions[ref.fd].closeAfterFlush
    ensures var r := PostRecv(QueueResponse(cfg, c, ref, Hello), ref);
            Settled(cfg, r) && Reading(cfg, r, {}) && !r.terminated && SameOtherTokensBut(c, r, ref)
  {
    QueueKeepsSettled(cfg, c, ref, Hello, {ref});
    QueueIsQuiet(cfg, c, ref, Hello);
    FirstReceive(cfg, c, QueueResponse(cfg, c, ref, Hello), ref);
    FirstReceiveTokens(c, QueueResponse(cfg, c, ref, Hello), ref);
  }

  lemma FirstReceiveTokens(c: ServerState, g: ServerState, ref: SessionRef)
    requires SameOtherTokens(c.tokens, g.tokens)
    ensures SameOtherTokensBut(c, PostRecv(g, ref), ref)
  {
  }

  lemma FirstReceive(cfg: Config, c: ServerState, g: ServerState, ref: SessionRef)
    requires Settled(cfg, g) && Reading(cfg, g, {ref}) && Quiet(c, g) && IsLive(c, ref) && ref in c.hist
    requires c.hist[ref] == History([], [], [], "", [], false, Open)
    requires c.sessions[ref.fd].input == "" && !c.sessions[ref.fd].closeAfterFlush
    ensures Settled(cfg, PostRecv(g, ref)) && Reading(cfg, PostRecv(g, ref), {})
  {
    assert QuietHistory(c.hist[ref], g.hist[ref]) && SameButSending(c.sessions[ref.fd], g.sessions[ref.fd]);
    PostRecvReads(cfg, g, ref);
    PostRecvKeepsCore(cfg, g, ref);
  }

  ghost predicate SameOtherTokensBut(s: ServerState, r: ServerState, ref: SessionRef) {
    r.tokens[AcceptToken] == s.tokens[AcceptToken] && r.tokens[DatabaseToken] == s.tokens[DatabaseToken]
  }

  // A line that says nothing about the world or about requests disturbs nothing.
  lemma QueueKeepsSettled(cfg: Config, s: ServerState, ref: SessionRef, reply: Reply, busy: set<SessionRef>)
    requires Settled(cfg, s) && Reading(cfg, s, busy) && IsNeutral(reply) && !reply.InWorld?
    ensures var r := QueueResponse(cfg, s, ref, reply);
            Settled(cfg, r) && Reading(cfg, r, busy) && r.terminated == s.terminated
  {
    var r := QueueResponse(cfg, s, ref, reply);
    QueueKeepsCore(cfg, s, ref, reply);
    QueueIsQuiet(cfg, s, ref, reply);
    QueueIsSilent(cfg, s, ref, reply);
    SameToldKeepsViews(s.world, s.hist, r.hist);
    QuietKeepsPlaces(s, r);
    QuietReadsSame(s, r);
    ReadingUnder(cfg, s, r, busy);
  }

  lemma QuietKeepsPlaces(s: ServerState, r: ServerState)
    requires Places(s) && r.world == s.world && QuietHistories(s.hist, r.hist)
    requires r.sessions.Keys == s.sessions.Keys
    requires forall fd :: fd in s.sessions ==> r.sessions[fd].generation == s.sessions[fd].generation
    ensures Places(r)
  {
    PlayersLiveTransfer(s.world, s.sessions, r.sessions);
    forall q | q in r.hist ensures StandsRight(r.world, r.hist[q], q) && SavedRight(r.hist[q], q) {
      assert QuietHistory(s.hist[q], r.hist[q]);
      assert StandsRight(s.world, s.hist[q], q) && SavedRight(s.hist[q], q);
    }
  }

  // Tokens that nothing in the invariant but receives and sends speaks of.
  lemma TokenKeepsInv(cfg: Config, s: ServerState, tokens: multiset<Token>)
    requires Settled(cfg, s) && Reading(cfg, s, {})
    requires forall t: Token :: t.RecvToken? || t.SendToken? ==> tokens[t] == s.tokens[t]
    ensures Settled(cfg, s.(tokens := tokens)) && Reading(cfg, s.(tokens := tokens), {})
  {
    TokenKeepsCore(cfg, s, tokens);
  }

  lemma TokenKeepsCore(cfg: Config, s: ServerState, tokens: multiset<Token>)
    requires Core(cfg, s)
    requires forall t: Token :: t.RecvToken? || t.SendToken? ==> tokens[t] == s.tokens[t]
    ensures Core(cfg, s.(tokens := tokens))
  {
    QuietKeepsCore(cfg, s, s.(tokens := tokens));
  }

  lemma OnAcceptKeepsInv(cfg: Config, s: ServerState, fd: Option<int>)
    requires Inv(cfg, s) && (fd.Some? ==> fd.value !in s.openFds)
    ensures Inv(cfg, OnAccept(cfg, s, fd))
    ensures OnAccept(cfg, s, fd).tokens[DatabaseToken] == s.tokens[DatabaseToken]
  {
    var s0 := Consume(s, AcceptToken);
    TokenKeepsInv(cfg, s, s0.tokens);
    match fd
    case None => AcceptAgain(cfg, s0);
    case Some(n) =>
      AcceptIsConnect(cfg, s, n);
      AcceptedKeepsInv(cfg, s0, n);
  }

  lemma AcceptedKeepsInv(cfg: Config, s: ServerState, fd: int)
    requires Settled(cfg, s) && Reading(cfg, s, {}) && !s.terminated && fd !in s.openFds && s.tokens[AcceptToken] == 0
    ensures var ref := SessionRef(fd, s.nextGeneration);
            var r := WithAccept(PostRecv(QueueResponse(cfg, Connected(s, fd), ref, Hello), ref));
            Inv(cfg, r) && r.tokens[DatabaseToken] == s.tokens[DatabaseToken]
  {
    var ref := SessionRef(fd, s.nextGeneration);
    GreetedIsReady(cfg, s, fd);
    AcceptAgain(cfg, PostRecv(QueueResponse(cfg, Connected(s, fd), ref, Hello), ref));
  }

  lemma AcceptAgain(cfg: Config, s: ServerState)
    requires Settled(cfg, s) && Reading(cfg, s, {}) && !s.terminated && s.tokens[AcceptToken] == 0
    ensures Inv(cfg, WithAccept(s))
  {
    TokenKeepsInv(cfg, s, WithAccept(s).tokens);
  }

  // ---------- Receive ----------

  lemma OwnReceive(s: ServerState, ref: SessionRef, fd: int)
    requires Generations(s) && fd in s.sessions
    ensures RefOf(s.sessions[fd]) in s.hist
    ensures RefOf(s.sessions[fd]) == ref <==> fd == ref.fd && IsLive(s, ref)
  {
    assert SessionKnown(s.sessions, s.hist, fd);
  }

  lemma ConsumeReads(cfg: Config, s: ServerState, ref: SessionRef)
    requires Generations(s) && Reading(cfg, s, {}) && RecvToken(ref) in s.tokens
    ensures Reading(cfg, Consume(s, RecvToken(ref)), if IsLive(s, ref) then {ref} else {})
    ensures IsLive(s, ref) ==> !s.sessions[ref.fd].closeAfterFlush
  {
    var s0 := Consume(s, RecvToken(ref));
    if IsLive(s, ref) {
      OwnReceive(s, ref, ref.fd);
    }
    forall fd | fd in s0.sessions
      ensures s0.tokens[RecvToken(RefOf(s0.sessions[fd]))] ==
              if s0.sessions[fd].closeAfterFlush || (IsLive(s, ref) && RefOf(s0.sessions[fd]) == ref) then 0 else 1
    {
      OwnReceive(s, ref, fd);
    }
  }

  lemma ConsumeRecv(cfg: Config, s: ServerState, ref: SessionRef)
    requires Inv(cfg, s) && RecvToken(ref) in s.tokens
    ensures var s0 := Consume(s, RecvToken(ref));
            && Settled(cfg, s0) && !s0.terminated && s0.tokens[AcceptToken] == 1
            && s0.tokens[DatabaseToken] == s.tokens[DatabaseToken]
            && Reading(cfg, s0, if IsLive(s, ref) then {ref} else {})
            && (IsLive(s, ref) ==> !s.sessions[ref.fd].closeAfterFlush)
  {
    ConsumeKeepsSettled(cfg, s, RecvToken(ref));
    ConsumeReads(cfg, s, ref);
  }

  lemma ConsumeKeepsSettled(cfg: Config, s: ServerState, token: Token)
    requires Settled(cfg, s) && token.RecvToken?
    ensures var s0 := Consume(s, token);
            && Settled(cfg, s0) && s0.tokens[AcceptToken] == s.tokens[AcceptToken]
            && s0.tokens[DatabaseToken] == s.tokens[DatabaseToken]
  {
    ConsumeKeepsCore(cfg, s, token);
  }

  lemma DropKeepsInv(cfg: Config, s: ServerState, ref: SessionRef)
    requires Inv(cfg, s) && RecvToken(ref) in s.tokens && IsLive(s, ref) && ValidOrder(cfg.order)
    ensures Inv(cfg, OnRecv(cfg, s, ref, ""))
    ensures OnRecv(cfg, s, ref, "").tokens[DatabaseToken] == s.tokens[DatabaseToken]
  {
    ConsumeRecv(cfg, s, ref);
    var s0 := Consume(s, RecvToken(ref));
    OpenIsPrefix(cfg, s0, ref);
    assert SessionKnown(s0.sessions, s0.hist, ref.fd);
    DropKeepsCore(cfg, s0, ref);
    var h := s0.hist[ref].(ending := Dropped);
    WithoutKeepsCore(cfg, s0, ref, s0.tokens, h);
    assert Erased(s0, ref, Dropped) == Without(s0, ref, s0.tokens, h);
    CloseKeepsInv(cfg, s0, ref, Dropped);
  }

  lemma AppendIs(cfg: Config, s: ServerState, ref: SessionRef, chunk: string)
    requires IsLive(s, ref) && ref in s.hist
    ensures var r := Append(s, ref, chunk);
            var session := s.sessions[ref.fd];
            && r.sessions == s.sessions[ref.fd := session.(input := session.input + chunk)]
            && r.hist == s.hist[ref := s.hist[ref].(chunks := s.hist[ref].chunks + [chunk])]
            && r.world == s.world && r.tokens == s.tokens && r.terminated == s.terminated
  {
  }

  lemma AppendKeepsCore(cfg: Config, s: ServerState, ref: SessionRef, chunk: string)
    requires Core(cfg, s) && IsLive(s, ref) && ref in s.hist
    ensures Core(cfg, Append(s, ref, chunk))
  {
    AppendSame(s, ref, chunk);
    QuietKeepsCore(cfg, s, Append(s, ref, chunk));
  }

  lemma AppendSame(s: ServerState, ref: SessionRef, chunk: string)
    requires AddressesIn(s.tokens, s.outstanding, s.hist.Keys) && IsLive(s, ref) && ref in s.hist
    ensures SameCore(s, Append(s, ref, chunk)) && SameSends(s, Append(s, ref, chunk))
  {
  }

  lemma AppendKeepsJourneys(w: WorldState, a: Histories, ref: SessionRef, chunks: seq<string>)
    requires JourneysIn(w, a) && ViewsIn(w, a) && ref in a
    ensures JourneysIn(w, a[ref := a[ref].(chunks := chunks)]) && ViewsIn(w, a[ref := a[ref].(chunks := chunks)])
  {
    var b := a[ref := a[ref].(chunks := chunks)];
    forall q | q in b ensures StandsRight(w, b[q], q) && SavedRight(b[q], q) && SeesRight(w, b[q], q) {
      assert StandsRight(w, a[q], q) && SavedRight(a[q], q) && SeesRight(w, a[q], q);
    }
  }

  lemma AppendKeeps(cfg: Config, s: ServerState, ref: SessionRef, chunk: string)
    requires Settled(cfg, s) && IsLive(s, ref) && ref in s.hist
    ensures Handling(cfg, Append(s, ref, chunk), ref)
  {
    AppendIs(cfg, s, ref, chunk);
    AppendKeepsCore(cfg, s, ref, chunk);
    PlayersLiveTransfer(s.world, s.sessions, Append(s, ref, chunk).sessions);
    AppendKeepsJourneys(s.world, s.hist, ref, s.hist[ref].chunks + [chunk]);
  }

  lemma AppendReads(cfg: Config, s: ServerState, ref: SessionRef, chunk: string)
    requires Generations(s) && IsLive(s, ref) && ref in s.hist && Reading(cfg, s, {ref}) && |chunk| <= cfg.recvBuffer
    requires FramerOf(cfg, s.hist[ref]).status.Reading?
    ensures Reading(cfg, Append(s, ref, chunk), {ref})
  {
    var r := Append(s, ref, chunk);
    AppendIs(cfg, s, ref, chunk);
    AppendKeepsChunks(cfg, s.hist, ref, chunk);
    forall fd | fd in r.sessions
      ensures RefOf(r.sessions[fd]) == RefOf(s.sessions[fd])
      ensures fd != ref.fd ==> RefOf(r.sessions[fd]) != ref
    {
      OwnReceive(s, ref, fd);
    }
  }

  lemma AppendKeepsChunks(cfg: Config, hist: Histories, ref: SessionRef, chunk: string)
    requires ChunksIn(cfg, hist) && ref in hist && |chunk| <= cfg.recvBuffer
    requires FramerOf(cfg, hist[ref]).status.Reading?
    ensures ChunksIn(cfg, hist[ref := hist[ref].(chunks := hist[ref].chunks + [chunk])])
  {
    var h := hist[ref].(chunks := hist[ref].chunks + [chunk]);
    assert h.chunks[..|h.chunks| - 1] == hist[ref].chunks;
    forall q | q in hist && q != ref ensures ChunksRight(cfg, hist[q]) {
    }
    assert ChunksRight(cfg, hist[ref]);
  }

  // While one connection's lines are handled the others read as before.
  lemma OthersReceive(s: ServerState, r: ServerState, ref: SessionRef)
    requires Generations(s) && IsLive(s, ref) && ReceivingIn(s.sessions, s.tokens, {ref}) && Around(s, r, ref)
    ensures ReceivingIn(r.sessions, r.tokens, {ref})
  {
    forall fd | fd in r.sessions
      ensures r.tokens[RecvToken(RefOf(r.sessions[fd]))] ==
              if r.sessions[fd].closeAfterFlush || RefOf(r.sessions[fd]) in {ref} then 0 else 1
    {
      OwnReceive(s, ref, fd);
      assert AroundSession(s.sessions[fd], r.sessions[fd], fd == ref.fd);
    }
  }

  lemma OthersFramed(cfg: Config, s: ServerState, r: ServerState, ref: SessionRef)
    requires Generations(s) && IsLive(s, ref) && FramingIn(cfg, s.sessions, s.hist, {ref}) && Around(s, r, ref)
    ensures FramingIn(cfg, r.sessions, r.hist, {ref})
  {
    forall q | q in r.hist && q !in {ref} ensures r.hist[q].lines == FramerOf(cfg, r.hist[q]).lines {
      assert QuietHistory(s.hist[q], r.hist[q]);
    }
    forall fd | fd in r.sessions && RefOf(r.sessions[fd]) in r.hist && RefOf(r.sessions[fd]) !in {ref}
      ensures FramedSession(cfg, r.sessions[fd], r.hist[RefOf(r.sessions[fd])])
    {
      OtherFramed(cfg, s, r, ref, fd);
    }
  }

  lemma OtherFramed(cfg: Config, s: ServerState, r: ServerState, ref: SessionRef, fd: int)
    requires Generations(s) && IsLive(s, ref) && FramingIn(cfg, s.sessions, s.hist, {ref}) && Around(s, r, ref)
    requires fd in r.sessions && RefOf(r.sessions[fd]) != ref
    ensures RefOf(r.sessions[fd]) in r.hist && FramedSession(cfg, r.sessions[fd], r.hist[RefOf(r.sessions[fd])])
  {
    OwnReceive(s, ref, fd);
    assert AroundSession(s.sessions[fd], r.sessions[fd], fd == ref.fd);
    var q := RefOf(s.sessions[fd]);
    assert QuietHistory(s.hist[q], r.hist[q]);
    assert FramedSession(cfg, s.sessions[fd], s.hist[q]);
  }

  lemma OthersRead(cfg: Config, s: ServerState, r: ServerState, ref: SessionRef)
    requires Generations(s) && IsLive(s, ref) && Reading(cfg, s, {ref}) && Around(s, r, ref)
    ensures Reading(cfg, r, {ref})
  {
    OthersReceive(s, r, ref);
    OthersFramed(cfg, s, r, ref);
    forall q | q in r.hist ensures ChunksRight(cfg, r.hist[q]) {
      assert ChunksRight(cfg, s.hist[q]);
      assert q != ref ==> QuietHistory(s.hist[q], r.hist[q]);
    }
  }

  // What the loop leaves: the connection's lines and buffer are those of its stream so far.
  ghost predicate Fed(cfg: Config, s: ServerState, ref: SessionRef)
    requires IsLive(s, ref) && ref in s.hist
  {
    var f := FramerOf(cfg, s.hist[ref]);
    var session := s.sessions[ref.fd];
    && s.hist[ref].lines == f.lines && session.input == f.input
    && (session.closeAfterFlush <==> f.status == F.SawLast)
    && (f.status == F.TooLong <==> !session.closeAfterFlush && |session.input| > cfg.maxLine)
  }

  lemma LinesAreFed(cfg: Config, before: History, after: History, input: string, chunk: string, session: Session)
    requires var f := FramerOf(cfg, before);
             f.status.Reading? && before.lines == f.lines && input == f.input
    requires after.chunks == before.chunks + [chunk]
    requires Took(input + chunk, before.lines, false, after.lines, session.input, session.closeAfterFlush)
    ensures var f := FramerOf(cfg, after);
            && after.lines == f.lines && session.input == f.input
            && (session.closeAfterFlush <==> f.status == F.SawLast)
            && (f.status == F.TooLong <==> !session.closeAfterFlush && |session.input| > cfg.maxLine)
  {
    F.FeedMore(before.chunks, chunk, cfg.maxLine, QuitLine());
  }

  // After the loop over the lines of a chunk.
  lemma ChunkHandled(cfg: Config, s: ServerState, ref: SessionRef, chunk: string)
    requires Settled(cfg, s) && Reading(cfg, s, {ref}) && !s.terminated && ValidOrder(cfg.order)
    requires |chunk| <= cfg.recvBuffer
    requires IsLive(s, ref) && !s.sessions[ref.fd].closeAfterFlush && ref in s.hist
    requires s.hist[ref].lines == FramerOf(cfg, s.hist[ref]).lines
    requires FramedSession(cfg, s.sessions[ref.fd], s.hist[ref])
    ensures var s1 := Append(s, ref, chunk);
            var r := ProcessLines(cfg, s1, ref);
            && Handling(cfg, r, ref) && Reading(cfg, r, {ref}) && ref in r.hist
            && r.tokens[AcceptToken] == s.tokens[AcceptToken] && r.tokens[DatabaseToken] == s.tokens[DatabaseToken]
            && (!r.terminated ==> Fed(cfg, r, ref))
  {
    AppendIs(cfg, s, ref, chunk);
    AppendKeeps(cfg, s, ref, chunk);
    AppendReads(cfg, s, ref, chunk);
    var s1 := Append(s, ref, chunk);
    ProcessLinesAround(cfg, s1, ref);
    var r := ProcessLines(cfg, s1, ref);
    OthersRead(cfg, s1, r, ref);
    if !r.terminated {
      TookIsFed(cfg, s, s1, r, ref, chunk);
    }
  }

  lemma TookIsFed(cfg: Config, s: ServerState, s1: ServerState, r: ServerState, ref: SessionRef, chunk: string)
    requires IsLive(s, ref) && ref in s.hist && IsLive(r, ref)
    requires s1.sessions == s.sessions[ref.fd := s.sessions[ref.fd].(input := s.sessions[ref.fd].input + chunk)]
    requires s1.hist == s.hist[ref := s.hist[ref].(chunks := s.hist[ref].chunks + [chunk])]
    requires Around(s1, r, ref) && TookLines(s1, r, ref) && !r.terminated
    requires s.hist[ref].lines == FramerOf(cfg, s.hist[ref]).lines
    requires FramedSession(cfg, s.sessions[ref.fd], s.hist[ref]) && !s.sessions[ref.fd].closeAfterFlush
    ensures Fed(cfg, r, ref)
  {
    LinesAreFed(cfg, s.hist[ref], r.hist[ref], s.sessions[ref.fd].input, chunk, r.sessions[ref.fd]);
  }

  // ---------- After the lines ----------

  // The connection whose chunk was handled is no longer busy.
  lemma NotBusy(cfg: Config, s: ServerState, ref: SessionRef)
    requires Generations(s) && IsLive(s, ref) && ref in s.hist && Reading(cfg, s, {ref})
    requires s.sessions[ref.fd].closeAfterFlush
    requires s.hist[ref].lines == FramerOf(cfg, s.hist[ref]).lines
    requires FramedSession(cfg, s.sessions[ref.fd], s.hist[ref])
    ensures Reading(cfg, s, {})
  {
    forall fd | fd in s.sessions ensures RefOf(s.sessions[fd]) == ref <==> fd == ref.fd {
      OwnReceive(s, ref, fd);
    }
  }

  lemma CloseFlagAround(s: ServerState, ref: SessionRef)
    requires IsLive(s, ref) && ref in s.hist
    ensures Around(s, CloseAfterFlush(s, ref), ref)
  {
  }

  lemma CloseFlagKeeps(cfg: Config, s: ServerState, ref: SessionRef)
    requires Settled(cfg, s) && Reading(cfg, s, {ref}) && IsLive(s, ref) && s.sessions[ref.fd].writeInFlight
    requires ref in s.hist
    ensures Settled(cfg, CloseAfterFlush(s, ref)) && Reading(cfg, CloseAfterFlush(s, ref), {ref})
  {
    CloseAfterFlushKeepsCore(cfg, s, ref);
    PlayersLiveTransfer(s.world, s.sessions, CloseAfterFlush(s, ref).sessions);
    CloseFlagAround(s, ref);
    OthersRead(cfg, s, CloseAfterFlush(s, ref), ref);
  }

  // The refusal is queued; the connection's lines and buffer stay what they were.
  lemma RefusalQueued(cfg: Config, s: ServerState, ref: SessionRef)
    requires Settled(cfg, s) && Reading(cfg, s, {ref}) && IsLive(s, ref) && ref in s.hist
    ensures var q := QueueResponse(cfg, s, ref, LineTooLong);
            && Settled(cfg, q) && Reading(cfg, q, {ref}) && q.terminated == s.terminated
            && IsLive(q, ref) && q.sessions[ref.fd].writeInFlight && ref in q.hist
            && SameReadingSession(s.sessions[ref.fd], q.sessions[ref.fd])
            && SameReadingHistory(s.hist[ref], q.hist[ref])
            && SameOtherTokens(s.tokens, q.tokens)
  {
    QueueKeepsSettled(cfg, s, ref, LineTooLong, {ref});
    QueueIsQuiet(cfg, s, ref, LineTooLong);
    QueuedIsInFlight(cfg, s, ref, LineTooLong);
    var q := QueueResponse(cfg, s, ref, LineTooLong);
    assert QuietHistory(s.hist[ref], q.hist[ref]) && SameButSending(s.sessions[ref.fd], q.sessions[ref.fd]);
  }

  lemma RefusedReads(cfg: Config, s: ServerState, q: ServerState, ref: SessionRef)
    requires IsLive(s, ref) && ref in s.hist && Fed(cfg, s, ref) && |s.sessions[ref.fd].input| > cfg.maxLine
    requires IsLive(q, ref) && ref in q.hist && Settled(cfg, CloseAfterFlush(q, ref))
    requires Reading(cfg, CloseAfterFlush(q, ref), {ref})
    requires SameReadingSession(s.sessions[ref.fd], q.sessions[ref.fd])
    requires SameReadingHistory(s.hist[ref], q.hist[ref])
    ensures Reading(cfg, CloseAfterFlush(q, ref), {})
  {
    NotBusy(cfg, CloseAfterFlush(q, ref), ref);
  }

  lemma RefusedKeepsInv(cfg: Config, s: ServerState, ref: SessionRef)
    requires Settled(cfg, s) && Reading(cfg, s, {ref}) && !s.terminated && IsLive(s, ref) && ref in s.hist
    requires Fed(cfg, s, ref) && |s.sessions[ref.fd].input| > cfg.maxLine && s.tokens[AcceptToken] == 1
    ensures Inv(cfg, FinishRecv(cfg, s, ref))
    ensures FinishRecv(cfg, s, ref).tokens[DatabaseToken] == s.tokens[DatabaseToken]
  {
    RefusalQueued(cfg, s, ref);
    var q := QueueResponse(cfg, s, ref, LineTooLong);
    CloseFlagKeeps(cfg, q, ref);
    RefusedReads(cfg, s, q, ref);
    NothingToFlush(cfg, CloseAfterFlush(q, ref), ref.fd);
  }

  lemma FinishKeepsInv(cfg: Config, s: ServerState, ref: SessionRef)
    requires Settled(cfg, s) && Reading(cfg, s, {ref}) && !s.terminated && IsLive(s, ref) && ref in s.hist
    requires Fed(cfg, s, ref) && s.tokens[AcceptToken] == 1
    ensures Inv(cfg, FinishRecv(cfg, s, ref))
    ensures FinishRecv(cfg, s, ref).tokens[DatabaseToken] == s.tokens[DatabaseToken]
  {
    if |s.sessions[ref.fd].input| > cfg.maxLine {
      RefusedKeepsInv(cfg, s, ref);
    } else if s.sessions[ref.fd].closeAfterFlush {
      StoppedKeepsInv(cfg, s, ref);
    } else {
      ReadOnKeepsInv(cfg, s, ref);
    }
  }

  lemma StoppedKeepsInv(cfg: Config, s: ServerState, ref: SessionRef)
    requires Settled(cfg, s) && Reading(cfg, s, {ref}) && !s.terminated && IsLive(s, ref) && ref in s.hist
    requires Fed(cfg, s, ref) && s.tokens[AcceptToken] == 1 && s.sessions[ref.fd].closeAfterFlush
    ensures MaybeCloseAfterFlush(cfg, s, ref.fd) == s && Inv(cfg, s)
  {
    NotBusy(cfg, s, ref);
    NothingToFlush(cfg, s, ref.fd);
  }

  lemma ReadOnKeepsInv(cfg: Config, s: ServerState, ref: SessionRef)
    requires Settled(cfg, s) && Reading(cfg, s, {ref}) && !s.terminated && IsLive(s, ref) && ref in s.hist
    requires Fed(cfg, s, ref) && s.tokens[AcceptToken] == 1
    requires |s.sessions[ref.fd].input| <= cfg.maxLine && !s.sessions[ref.fd].closeAfterFlush
    ensures Inv(cfg, PostRecv(s, ref))
  {
    PostRecvReads(cfg, s, ref);
    PostRecvKeepsCore(cfg, s, ref);
  }

  lemma OnRecvKeepsInv(cfg: Config, s: ServerState, ref: SessionRef, chunk: string)
    requires Inv(cfg, s) && RecvToken(ref) in s.tokens && |chunk| <= cfg.recvBuffer && ValidOrder(cfg.order)
    ensures TerminatedOrInv(cfg, OnRecv(cfg, s, ref, chunk))
    ensures OnRecv(cfg, s, ref, chunk).tokens[DatabaseToken] == s.tokens[DatabaseToken]
  {
    ConsumeRecv(cfg, s, ref);
    var s0 := Consume(s, RecvToken(ref));
    if IsLive(s, ref) {
      if chunk == "" {
        DropKeepsInv(cfg, s, ref);
      } else {
        OwnReceive(s, ref, ref.fd);
        assert FramedSession(cfg, s.sessions[ref.fd], s.hist[ref]);
        ChunkHandled(cfg, s0, ref, chunk);
        var s2 := ProcessLines(cfg, Append(s0, ref, chunk), ref);
        if !s2.terminated {
          FinishKeepsInv(cfg, s2, ref);
        }
      }
    }
  }
}

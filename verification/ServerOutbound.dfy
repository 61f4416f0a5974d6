/** Acknowledged sends and database completions keep the whole invariant. */
module ServerOutbound {
  import opened World
  import opened Server
  import opened ServerCore
  import opened ServerSteps
  import opened ServerClosing
  import opened ServerSends
  import opened ServerLines
  import opened ServerPlaces
  import opened ServerViews
  import opened ServerInvariant
  import opened ServerHandlers

  // Equal but for the sending side of sessions and the bytes sent.
  ghost predicate SameButBytes(s: ServerState, r: ServerState) {
    && r.sessions.Keys == s.sessions.Keys
    && (forall fd :: fd in s.sessions ==> SameReadingSession(s.sessions[fd], r.sessions[fd]))
    && SameOtherTokens(s.tokens, r.tokens)
    && r.world == s.world && r.terminated == s.terminated
    && r.hist.Keys == s.hist.Keys
    && (forall q :: q in s.hist ==> SameButSent(s.hist[q], r.hist[q]))
  }

  predicate SameButSent(a: History, b: History) {
    && a.chunks == b.chunks && a.lines == b.lines && a.queued == b.queued
    && a.saves == b.saves && a.settled == b.settled && a.ending == b.ending
  }

  lemma BytesKeepAgreement(cfg: Config, s: ServerState, r: ServerState, busy: set<SessionRef>)
    requires Places(s) && ViewsIn(s.world, s.hist) && Reading(cfg, s, busy) && SameButBytes(s, r)
    ensures Places(r) && ViewsIn(r.world, r.hist) && Reading(cfg, r, busy)
  {
    PlayersLiveTransfer(s.world, s.sessions, r.sessions);
    forall q | q in r.hist
      ensures StandsRight(r.world, r.hist[q], q) && SavedRight(r.hist[q], q) && SeesRight(r.world, r.hist[q], q)
      ensures SameReadingHistory(s.hist[q], r.hist[q])
    {
      assert SameButSent(s.hist[q], r.hist[q]);
      assert StandsRight(s.world, s.hist[q], q) && SavedRight(s.hist[q], q) && SeesRight(s.world, s.hist[q], q);
    }
    ReadingUnder(cfg, s, r, busy);
  }

  // ---------- Sent ----------

  lemma ResumedIsBytes(cfg: Config, s: ServerState, ref: SessionRef, n: nat)
    requires IsLive(s, ref) && ref in s.hist && s.sessions[ref.fd].outbox != [] && n <= |s.sessions[ref.fd].outbox[0]|
    ensures SameButBytes(s, Resumed(s, ref, n))
  {
  }

  // Closing a session whose own receive may be in flight; the receive will find it gone.
  lemma CloseFromSend(cfg: Config, s: ServerState, r: ServerState, ref: SessionRef, ending: Ending)
    requires Inv(cfg, s) && IsLive(s, ref) && SameButBytes(s, r) && ValidOrder(cfg.order) && ending != Open
    requires Core(cfg, CloseSession(cfg, r, ref.fd, ending)) && Core(cfg, Erased(r, ref, ending))
    ensures Inv(cfg, CloseSession(cfg, r, ref.fd, ending))
    ensures CloseSession(cfg, r, ref.fd, ending).tokens[DatabaseToken] == s.tokens[DatabaseToken]
  {
    BytesKeepAgreement(cfg, s, r, {});
    assert SessionKnown(s.sessions, s.hist, ref.fd);
    assert SameReadingSession(s.sessions[ref.fd], r.sessions[ref.fd]) && SameButSent(s.hist[ref], r.hist[ref]);
    CloseKeepsPlaces(cfg, r, ref, ending);
    CloseKeepsViews(cfg, r, ref, ending);
    CloseReadsSame(cfg, r, ref, ending);
    ReadingUnder(cfg, r, CloseSession(cfg, r, ref.fd, ending), {});
  }

  lemma SentKeepsInv(cfg: Config, s: ServerState, ref: SessionRef, payload: string, n: nat)
    requires Inv(cfg, s) && IsLive(s, ref) && SendToken(ref, payload) in s.tokens && 0 < n <= |payload|
    requires ValidOrder(cfg.order)
    ensures Inv(cfg, OnSent(cfg, s, ref, payload, n))
    ensures OnSent(cfg, s, ref, payload, n).tokens[DatabaseToken] == s.tokens[DatabaseToken]
  {
    SentKeepsCore(cfg, s, ref, payload, n);
    OnSentIsAcknowledge(cfg, s, ref, payload, n);
    PostSendResumes(cfg, s, ref, n);
    SendIsFront(cfg, s, ref, payload);
    ResumedIsBytes(cfg, s, ref, n);
    var r := Resumed(s, ref, n);
    if r.sessions[ref.fd].closeAfterFlush && r.sessions[ref.fd].outbox == [] {
      FlushedErased(cfg, s, ref, payload, n);
      CloseFromSend(cfg, s, r, ref, Flushed);
    } else {
      GoesOnSending(cfg, s, r);
    }
  }

  lemma GoesOnSending(cfg: Config, s: ServerState, r: ServerState)
    requires Inv(cfg, s) && SameButBytes(s, r) && Core(cfg, r)
    ensures Inv(cfg, r) && r.tokens[DatabaseToken] == s.tokens[DatabaseToken]
  {
    BytesKeepAgreement(cfg, s, r, {});
  }

  lemma FlushedErased(cfg: Config, s: ServerState, ref: SessionRef, payload: string, n: nat)
    requires Core(cfg, s) && IsLive(s, ref) && SendToken(ref, payload) in s.tokens && 0 < n <= |payload|
    requires ref in s.hist && s.sessions[ref.fd].outbox != [] && s.sessions[ref.fd].outbox[0] == payload
    requires AfterSent(s.sessions[ref.fd].outbox, n) == []
    ensures Core(cfg, Erased(Resumed(s, ref, n), ref, Flushed))
  {
    ResumedKeepsPipeline(cfg, s, ref, payload, n);
    FlushedWhenAllSent(cfg, s, ref, payload, n);
    ResumedErases(s, ref, n, Flushed);
    var r := Resumed(s, ref, n);
    WithoutKeepsCore(cfg, s, ref, r.tokens, r.hist[ref].(ending := Flushed));
  }

  // The state in which a failed send closes its session.
  function SendLost(s: ServerState, ref: SessionRef, payload: string): ServerState
    requires IsLive(s, ref)
  {
    s.(tokens := s.tokens - multiset{SendToken(ref, payload)},
       sessions := s.sessions[ref.fd := s.sessions[ref.fd].(writeInFlight := false)])
  }

  lemma SendLostErased(cfg: Config, s: ServerState, ref: SessionRef, payload: string)
    requires Core(cfg, s) && IsLive(s, ref) && SendToken(ref, payload) in s.tokens
    ensures Core(cfg, Erased(SendLost(s, ref, payload), ref, Dropped))
  {
    SendIsFront(cfg, s, ref, payload);
    OpenIsPrefix(cfg, s, ref);
    var r := SendLost(s, ref, payload);
    var h := s.hist[ref].(ending := Dropped);
    WithoutKeepsCore(cfg, s, ref, r.tokens, h);
    LostErases(s, ref, payload);
  }

  lemma LostErases(s: ServerState, ref: SessionRef, payload: string)
    requires IsLive(s, ref) && ref in s.hist
    ensures Erased(SendLost(s, ref, payload), ref, Dropped) ==
            Without(s, ref, SendLost(s, ref, payload).tokens, s.hist[ref].(ending := Dropped))
  {
    assert Erased(SendLost(s, ref, payload), ref, Dropped).sessions == s.sessions - {ref.fd};
  }

  lemma FailureCloses(cfg: Config, s: ServerState, ref: SessionRef, payload: string)
    requires IsLive(s, ref)
    ensures OnSent(cfg, s, ref, payload, 0) == CloseSession(cfg, SendLost(s, ref, payload), ref.fd, Dropped)
    ensures SameButBytes(s, SendLost(s, ref, payload))
  {
  }

  lemma SendFailedKeepsInv(cfg: Config, s: ServerState, ref: SessionRef, payload: string)
    requires Inv(cfg, s) && IsLive(s, ref) && SendToken(ref, payload) in s.tokens && ValidOrder(cfg.order)
    ensures Inv(cfg, OnSent(cfg, s, ref, payload, 0))
    ensures OnSent(cfg, s, ref, payload, 0).tokens[DatabaseToken] == s.tokens[DatabaseToken]
  {
    SendFailedKeepsCore(cfg, s, ref, payload);
    SendLostErased(cfg, s, ref, payload);
    FailureCloses(cfg, s, ref, payload);
    CloseFromSend(cfg, s, SendLost(s, ref, payload), ref, Dropped);
  }

  lemma StaleSendKeepsInv(cfg: Config, s: ServerState, ref: SessionRef, payload: string)
    requires Inv(cfg, s) && !IsLive(s, ref)
    ensures Inv(cfg, Consume(s, SendToken(ref, payload)))
    ensures Consume(s, SendToken(ref, payload)).tokens[DatabaseToken] == s.tokens[DatabaseToken]
  {
    StaleSendKeepsCore(cfg, s, ref, payload);
    ConsumedSendIsBytes(s, SendToken(ref, payload));
    BytesKeepAgreement(cfg, s, Consume(s, SendToken(ref, payload)), {});
  }

  lemma ConsumedSendIsBytes(s: ServerState, token: Token)
    requires token.SendToken?
    ensures SameButBytes(s, Consume(s, token))
  {
  }

  lemma OnSentKeepsInv(cfg: Config, s: ServerState, ref: SessionRef, payload: string, n: nat)
    requires Inv(cfg, s) && SendToken(ref, payload) in s.tokens && n <= |payload| && ValidOrder(cfg.order)
    ensures Inv(cfg, OnSent(cfg, s, ref, payload, n))
    ensures OnSent(cfg, s, ref, payload, n).tokens[DatabaseToken] == s.tokens[DatabaseToken]
  {
    if !IsLive(s, ref) {
      StaleSendKeepsInv(cfg, s, ref, payload);
    } else if n == 0 {
      SendFailedKeepsInv(cfg, s, ref, payload);
    } else {
      SentKeepsInv(cfg, s, ref, payload, n);
    }
  }

  // ---------- Completions ----------

  lemma AnswerIsSilent(cfg: Config, s: ServerState, ref: SessionRef, reply: Reply)
    requires IsLive(s, ref) && ref in s.hist && !reply.InWorld?
    ensures SameTold(s.hist, Enqueued(cfg, s, ref, reply).hist)
  {
    ReplyIsSilent(s.hist, ref, reply);
  }

  lemma ReplyIsSilent(hist: Histories, ref: SessionRef, reply: Reply)
    requires ref in hist && !reply.InWorld?
    ensures SameTold(hist, WithReply(hist, ref, reply))
  {
    ToldAppend(hist[ref].queued, reply);
  }

  lemma AnsweredReads(s: ServerState, t: Ticket, r: ServerState)
    requires IsLive(s, t.ref) && s.sessions[t.ref.fd].pendingDb > 0 && Quiet(Answering(s, t), r)
    ensures ReadsSame(s, r) && SameReceives(s, r) && r.sessions.Keys == s.sessions.Keys
  {
    var a := Answering(s, t);
    forall fd | fd in r.sessions ensures SameReadingSession(s.sessions[fd], r.sessions[fd]) {
      assert SameButSending(a.sessions[fd], r.sessions[fd]);
    }
    forall q | q in s.hist ensures SameReadingHistory(s.hist[q], r.hist[q]) {
      assert QuietHistory(a.hist[q], r.hist[q]);
    }
  }

  lemma AnsweredIsQuiet(cfg: Config, s: ServerState, c: DbCompletion)
    requires Core(cfg, s) && c.ticket in s.outstanding && c.ticket.notify && IsLive(s, c.ticket.ref)
    ensures var r := OnCompletion(cfg, s, c);
            && ReadsSame(s, r) && SameReceives(s, r) && SameTold(s.hist, r.hist)
            && r.sessions.Keys == s.sessions.Keys
            && QuietHistories(s.hist, r.hist) && SameOtherTokens(s.tokens, r.tokens)
            && r.world == s.world && r.terminated == s.terminated
            && r.jobs == s.jobs && r.outstanding == s.outstanding - {c.ticket}
  {
    AnsweredKeepsCore(cfg, s, c);
    var t, ref, reply := c.ticket, c.ticket.ref, Answer(c.ticket.id, c.ok, c.line);
    OpenIsPrefix(cfg, s, ref);
    var a := Answering(s, t);
    EnqueueIsQuiet(cfg, a, ref, reply);
    AnswerIsSilent(cfg, a, ref, reply);
    AnsweredReads(s, t, Enqueued(cfg, a, ref, reply));
  }

  lemma OnCompletionKeepsInv(cfg: Config, s: ServerState, c: DbCompletion)
    requires Inv(cfg, s) && c.ticket in s.outstanding
    ensures Inv(cfg, OnCompletion(cfg, s, c))
    ensures OnCompletion(cfg, s, c).tokens[DatabaseToken] == s.tokens[DatabaseToken]
    ensures OnCompletion(cfg, s, c).jobs == s.jobs
    ensures OnCompletion(cfg, s, c).outstanding == s.outstanding - {c.ticket}
  {
    CompletionKeepsCore(cfg, s, c);
    if c.ticket.notify && IsLive(s, c.ticket.ref) {
      AnsweredKeepsCore(cfg, s, c);
      AnsweredIsQuiet(cfg, s, c);
      var r := OnCompletion(cfg, s, c);
      QuietKeepsPlaces(s, r);
      SameToldKeepsViews(s.world, s.hist, r.hist);
      ReadingUnder(cfg, s, r, {});
    }
  }
}

/** A connection begins, its bytes go out, and every step of it keeps the core invariant. */
module ServerSends {
  import opened Decimal
  import opened World
  import opened Server
  import opened ServerCore
  import opened ServerSteps
  import opened ServerClosing

  // ---------- Sent ----------

  // What the send handler knows when the completion of a live session's send arrives.
  lemma SendIsFront(cfg: Config, s: ServerState, ref: SessionRef, payload: string)
    requires Core(cfg, s) && IsLive(s, ref) && SendToken(ref, payload) in s.tokens
    ensures var session := s.sessions[ref.fd];
            && RefOf(session) == ref && session.fd == ref.fd
            && session.writeInFlight && session.outbox != [] && session.outbox[0] == payload && payload != ""
            && s.tokens[SendToken(ref, payload)] == 1
            && (forall p :: SendToken(ref, p) in s.tokens ==> p == payload)
            && ref in s.hist && s.hist[ref].ending == Open
            && OpenPipeline(cfg, s.hist[ref], session.outbox)
  {
    assert SessionKnown(s.sessions, s.hist, ref.fd);
    assert SendingSession(s.tokens, s.sessions[ref.fd]);
  }

  lemma SendIsAlone(s: ServerState, ref: SessionRef, payload: string)
    requires Generations(s) && Sending(s) && IsLive(s, ref) && SendToken(ref, payload) in s.tokens
    ensures s.tokens[SendToken(ref, payload)] == 1
    ensures forall p :: SendToken(ref, p) in s.tokens ==> p == payload
    ensures s.sessions[ref.fd].outbox != [] && s.sessions[ref.fd].outbox[0] == payload
    ensures forall i :: 0 <= i < |s.sessions[ref.fd].outbox| ==> s.sessions[ref.fd].outbox[i] != ""
    ensures RefOf(s.sessions[ref.fd]) == ref
  {
    assert SessionKnown(s.sessions, s.hist, ref.fd);
    assert SendingSession(s.tokens, s.sessions[ref.fd]);
  }

  // What is left to send after `n` bytes of the front went out.
  function AfterSent(outbox: seq<string>, n: nat): seq<string>
    requires outbox != []
  {
    if n >= |outbox[0]| then outbox[1..] else [outbox[0][n..]] + outbox[1..]
  }

  /** Partial sends: the bytes that went out are exactly those that are no longer queued. */
  lemma SentBytes(outbox: seq<string>, n: nat)
    requires outbox != [] && n <= |outbox[0]|
    requires forall i :: 0 <= i < |outbox| ==> outbox[i] != ""
    ensures outbox[0][..n] + Flatten(AfterSent(outbox, n)) == Flatten(outbox)
    ensures forall i :: 0 <= i < |AfterSent(outbox, n)| ==> AfterSent(outbox, n)[i] != ""
  {
    var rest := outbox[1..];
    if n < |outbox[0]| {
      assert ([outbox[0][n..]] + rest)[1..] == rest;
      TwoParts(outbox[0], n, Flatten(rest));
    }
  }

  lemma TwoParts(s: string, n: nat, rest: string)
    requires n <= |s|
    ensures s[..n] + (s[n..] + rest) == s + rest
  {
  }

  lemma SentKeepsPipeline(cfg: Config, h: History, outbox: seq<string>, n: nat)
    requires OpenPipeline(cfg, h, outbox) && outbox != [] && n <= |outbox[0]|
    requires forall i :: 0 <= i < |outbox| ==> outbox[i] != ""
    ensures OpenPipeline(cfg, h.(sent := h.sent + outbox[0][..n]), AfterSent(outbox, n))
  {
    SentBytes(outbox, n);
  }

  // The state of the send handler when it asks for the next send.
  function Acknowledged(s: ServerState, ref: SessionRef, n: nat): ServerState
    requires IsLive(s, ref) && ref in s.hist && s.sessions[ref.fd].outbox != [] && n <= |s.sessions[ref.fd].outbox[0]|
  {
    var session := s.sessions[ref.fd];
    var payload := session.outbox[0];
    var h := s.hist[ref];
    s.(tokens := s.tokens - multiset{SendToken(ref, payload)},
       sessions := s.sessions[ref.fd := session.(writeInFlight := false, outbox := AfterSent(session.outbox, n))],
       hist := s.hist[ref := h.(sent := h.sent + payload[..n])])
  }

  lemma OnSentIsAcknowledge(cfg: Config, s: ServerState, ref: SessionRef, payload: string, n: nat)
    requires Core(cfg, s) && IsLive(s, ref) && SendToken(ref, payload) in s.tokens && 0 < n <= |payload|
    ensures ref in s.hist && s.sessions[ref.fd].outbox != [] && s.sessions[ref.fd].outbox[0] == payload
    ensures OnSent(cfg, s, ref, payload, n) ==
            MaybeCloseAfterFlush(cfg, PostSend(Acknowledged(s, ref, n), ref.fd), ref.fd)
  {
    SendIsFront(cfg, s, ref, payload);
    AcknowledgeIs(s, ref, payload, n);
  }

  lemma AcknowledgeIs(s: ServerState, ref: SessionRef, payload: string, n: nat)
    requires IsLive(s, ref) && ref in s.hist && n <= |payload|
    requires s.sessions[ref.fd].outbox != [] && s.sessions[ref.fd].outbox[0] == payload
    ensures var s0 := Consume(s, SendToken(ref, payload));
            var s1 := s0.(sessions := s0.sessions[ref.fd := s0.sessions[ref.fd].(writeInFlight := false)]);
            Acknowledge(s1, ref, payload, n) == Acknowledged(s, ref, n)
  {
    var s0 := Consume(s, SendToken(ref, payload));
    var s1 := s0.(sessions := s0.sessions[ref.fd := s0.sessions[ref.fd].(writeInFlight := false)]);
    assert Acknowledge(s1, ref, payload, n).sessions == Acknowledged(s, ref, n).sessions;
  }

  // The state after the next send was asked for, when there is one to ask for.
  function Resumed(s: ServerState, ref: SessionRef, n: nat): ServerState
    requires IsLive(s, ref) && ref in s.hist && s.sessions[ref.fd].outbox != [] && n <= |s.sessions[ref.fd].outbox[0]|
  {
    var session := s.sessions[ref.fd];
    var outbox := AfterSent(session.outbox, n);
    var h := s.hist[ref];
    var rest := s.tokens - multiset{SendToken(ref, session.outbox[0])};
    s.(tokens := if outbox == [] then rest else rest + multiset{SendToken(ref, outbox[0])},
       sessions := s.sessions[ref.fd := session.(writeInFlight := outbox != [], outbox := outbox)],
       hist := s.hist[ref := h.(sent := h.sent + session.outbox[0][..n])])
  }

  lemma PostSendResumes(cfg: Config, s: ServerState, ref: SessionRef, n: nat)
    requires Generations(s) && IsLive(s, ref) && ref in s.hist
    requires s.sessions[ref.fd].outbox != [] && n <= |s.sessions[ref.fd].outbox[0]|
    ensures PostSend(Acknowledged(s, ref, n), ref.fd) == Resumed(s, ref, n)
  {
    assert SessionKnown(s.sessions, s.hist, ref.fd);
  }

  lemma ResumedKeepsGenerations(s: ServerState, ref: SessionRef, n: nat)
    requires Generations(s) && IsLive(s, ref) && ref in s.hist
    requires s.sessions[ref.fd].outbox != [] && n <= |s.sessions[ref.fd].outbox[0]|
    ensures Generations(Resumed(s, ref, n))
  {
    var r := Resumed(s, ref, n);
    forall fd | fd in r.sessions ensures SessionKnown(r.sessions, r.hist, fd) {
      assert SessionKnown(s.sessions, s.hist, fd);
    }
    forall q | q in r.hist ensures ConnectionKnown(r.sessions, r.hist, r.nextGeneration, q) {
      assert ConnectionKnown(s.sessions, s.hist, s.nextGeneration, q);
    }
    assert r.hist.Keys == s.hist.Keys && r.sessions.Keys == s.sessions.Keys;
  }

  lemma ResumedKeepsSending(s: ServerState, ref: SessionRef, payload: string, n: nat)
    requires Generations(s) && Sending(s) && IsLive(s, ref) && SendToken(ref, payload) in s.tokens && 0 < n <= |payload|
    requires ref in s.hist && s.sessions[ref.fd].outbox != [] && s.sessions[ref.fd].outbox[0] == payload
    ensures var r := Resumed(s, ref, n);
            (r.sessions[ref.fd].closeAfterFlush ==> r.sessions[ref.fd].outbox != []) ==> Sending(r)
  {
    var r := Resumed(s, ref, n);
    SendIsAlone(s, ref, payload);
    SentBytes(s.sessions[ref.fd].outbox, n);
    if r.sessions[ref.fd].closeAfterFlush ==> r.sessions[ref.fd].outbox != [] {
      forall fd | fd in r.sessions ensures SendingSession(r.tokens, r.sessions[fd]) {
        assert SendingSession(s.tokens, s.sessions[fd]) && SessionKnown(s.sessions, s.hist, fd);
      }
      forall t | t in r.tokens && t.SendToken? && LiveIn(r.sessions, t.ref)
        ensures var session := r.sessions[t.ref.fd];
                session.writeInFlight && session.outbox != [] && t.payload == session.outbox[0]
      {
        OwnTokens(s, ref, payload, r, t);
      }
    }
  }

  lemma OwnTokens(s: ServerState, ref: SessionRef, payload: string, r: ServerState, t: Token)
    requires Sending(s) && s.tokens[SendToken(ref, payload)] == 1
    requires forall p :: SendToken(ref, p) in s.tokens ==> p == payload
    requires t.SendToken? && t in r.tokens && LiveIn(r.sessions, t.ref) && IsLive(s, ref)
    requires r.sessions.Keys == s.sessions.Keys
    requires forall fd :: fd in s.sessions ==> r.sessions[fd].generation == s.sessions[fd].generation
    requires forall fd :: fd in s.sessions && fd != ref.fd ==> r.sessions[fd] == s.sessions[fd]
    requires var outbox := r.sessions[ref.fd].outbox;
             && r.sessions[ref.fd].writeInFlight == (outbox != [])
             && r.tokens == (s.tokens - multiset{SendToken(ref, payload)}) +
                            (if outbox == [] then multiset{} else multiset{SendToken(ref, outbox[0])})
    ensures var session := r.sessions[t.ref.fd];
            session.writeInFlight && session.outbox != [] && t.payload == session.outbox[0]
  {
    if t.ref == ref {
      assert t != SendToken(ref, payload) ==> t !in s.tokens;
    } else {
      assert t in s.tokens && LiveIn(s.sessions, t.ref);
    }
  }

  lemma ResumedKeepsPipeline(cfg: Config, s: ServerState, ref: SessionRef, payload: string, n: nat)
    requires Core(cfg, s) && IsLive(s, ref) && SendToken(ref, payload) in s.tokens && 0 < n <= |payload|
    requires ref in s.hist && s.sessions[ref.fd].outbox != [] && s.sessions[ref.fd].outbox[0] == payload
    ensures Pipeline(cfg, Resumed(s, ref, n))
  {
    var r := Resumed(s, ref, n);
    SendIsFront(cfg, s, ref, payload);
    assert SendingSession(s.tokens, s.sessions[ref.fd]);
    SentKeepsPipeline(cfg, s.hist[ref], s.sessions[ref.fd].outbox, n);
    forall fd | fd in r.sessions && RefOf(r.sessions[fd]) in r.hist
      ensures OpenPipeline(cfg, r.hist[RefOf(r.sessions[fd])], r.sessions[fd].outbox)
    {
      assert SessionKnown(s.sessions, s.hist, fd);
    }
  }

  lemma ResumedKeepsRest(cfg: Config, s: ServerState, ref: SessionRef, n: nat)
    requires Core(cfg, s) && IsLive(s, ref) && ref in s.hist
    requires s.sessions[ref.fd].outbox != [] && n <= |s.sessions[ref.fd].outbox[0]|
    ensures Owed(Resumed(s, ref, n)) && Replies(Resumed(s, ref, n))
  {
    var r := Resumed(s, ref, n);
    forall fd | fd in r.sessions
      ensures r.sessions[fd].pendingDb == |OwedTo(r.outstanding, RefOf(r.sessions[fd]))|
    {
      assert s.sessions[fd].pendingDb == |OwedTo(s.outstanding, RefOf(s.sessions[fd]))|;
    }
    SameQueuesKeepReplies(s, r);
  }

  /** A closing session is closed by the send handler when, and only when, its last byte went out:
      then everything queued for it was sent. */
  lemma FlushedWhenAllSent(cfg: Config, s: ServerState, ref: SessionRef, payload: string, n: nat)
    requires Core(cfg, s) && IsLive(s, ref) && SendToken(ref, payload) in s.tokens && 0 < n <= |payload|
    requires ref in s.hist && s.sessions[ref.fd].outbox != [] && s.sessions[ref.fd].outbox[0] == payload
    ensures var r := Resumed(s, ref, n);
            && ref in r.hist
            && (r.sessions[ref.fd].outbox == [] ==> r.hist[ref].sent == Wire(cfg, r.hist[ref].queued))
  {
    ResumedKeepsPipeline(cfg, s, ref, payload, n);
    SendIsFront(cfg, s, ref, payload);
    var r := Resumed(s, ref, n);
    assert RefOf(r.sessions[ref.fd]) == ref;
    assert OpenPipeline(cfg, r.hist[ref], r.sessions[ref.fd].outbox);
  }

  lemma SentKeepsCore(cfg: Config, s: ServerState, ref: SessionRef, payload: string, n: nat)
    requires Core(cfg, s) && IsLive(s, ref) && SendToken(ref, payload) in s.tokens && 0 < n <= |payload|
    requires IndexValid(s.world) && ValidOrder(cfg.order)
    ensures Core(cfg, OnSent(cfg, s, ref, payload, n))
  {
    OnSentIsAcknowledge(cfg, s, ref, payload, n);
    PostSendResumes(cfg, s, ref, n);
    SendIsFront(cfg, s, ref, payload);
    var r := Resumed(s, ref, n);
    ResumedKeepsPipeline(cfg, s, ref, payload, n);
    if r.sessions[ref.fd].closeAfterFlush && r.sessions[ref.fd].outbox == [] {
      FlushedWhenAllSent(cfg, s, ref, payload, n);
      ResumedErases(s, ref, n, Flushed);
      CloseKeepsCore(cfg, s, ref, r, Flushed);
    } else {
      ResumedKeepsGenerations(s, ref, n);
      ResumedKeepsSending(s, ref, payload, n);
      ResumedKeepsRest(cfg, s, ref, n);
      NothingToFlush(cfg, r, ref.fd);
    }
  }

  lemma ResumedErases(s: ServerState, ref: SessionRef, n: nat, ending: Ending)
    requires IsLive(s, ref) && ref in s.hist
    requires s.sessions[ref.fd].outbox != [] && n <= |s.sessions[ref.fd].outbox[0]|
    requires AfterSent(s.sessions[ref.fd].outbox, n) == []
    ensures var r := Resumed(s, ref, n);
            && FewerOwnSends(r.tokens, s.tokens, ref)
            && ref in r.hist && r.hist[ref].queued == s.hist[ref].queued
            && Erased(r, ref, ending) == Without(s, ref, r.tokens, r.hist[ref].(ending := ending))
  {
    var r := Resumed(s, ref, n);
    assert Erased(r, ref, ending).sessions == s.sessions - {ref.fd};
    assert Erased(r, ref, ending).hist == s.hist[ref := r.hist[ref].(ending := ending)];
  }

  lemma SendFailedKeepsCore(cfg: Config, s: ServerState, ref: SessionRef, payload: string)
    requires Core(cfg, s) && IsLive(s, ref) && SendToken(ref, payload) in s.tokens
    requires IndexValid(s.world) && ValidOrder(cfg.order)
    ensures Core(cfg, OnSent(cfg, s, ref, payload, 0))
  {
    SendIsFront(cfg, s, ref, payload);
    OpenIsPrefix(cfg, s, ref);
    var s0 := Consume(s, SendToken(ref, payload));
    var s1 := s0.(sessions := s0.sessions[ref.fd := s0.sessions[ref.fd].(writeInFlight := false)]);
    assert Erased(s1, ref, Dropped).sessions == s.sessions - {ref.fd};
    CloseKeepsCore(cfg, s, ref, s1, Dropped);
  }

  lemma StaleSendKeepsCore(cfg: Config, s: ServerState, ref: SessionRef, payload: string)
    requires Core(cfg, s) && !IsLive(s, ref)
    ensures Core(cfg, Consume(s, SendToken(ref, payload)))
  {
    var r := Consume(s, SendToken(ref, payload));
    forall fd | fd in r.sessions ensures SendingSession(r.tokens, r.sessions[fd]) {
      assert SendingSession(s.tokens, s.sessions[fd]) && SessionKnown(s.sessions, s.hist, fd);
    }
  }

  // ---------- Accepted ----------

  // The state in which a new connection is greeted.
  function Connected(s: ServerState, fd: int): ServerState {
    var ref := SessionRef(fd, s.nextGeneration);
    s.(nextGeneration := s.nextGeneration + 1, openFds := s.openFds + {fd},
       sessions := s.sessions[fd := Session(fd, s.nextGeneration, "", [], false, false, 0)],
       hist := s.hist[ref := History([], [], [], "", [], false, Open)])
  }

  /** The kernel gives an unused descriptor, so the insertion always inserts; and the generation is new. */
  lemma AcceptIsFresh(cfg: Config, s: ServerState, fd: int)
    requires Core(cfg, s) && fd !in s.openFds
    ensures fd !in s.sessions
    ensures SessionRef(fd, s.nextGeneration) !in s.hist
  {
    forall r | r in s.hist ensures r.generation < s.nextGeneration {
      assert ConnectionKnown(s.sessions, s.hist, s.nextGeneration, r);
    }
  }

  lemma ConnectedKeepsGenerations(cfg: Config, s: ServerState, fd: int)
    requires Core(cfg, s) && fd !in s.openFds
    ensures Generations(Connected(s, fd))
  {
    AcceptIsFresh(cfg, s, fd);
    var r := Connected(s, fd);
    forall g | g in r.sessions ensures SessionKnown(r.sessions, r.hist, g) {
      if g != fd { assert SessionKnown(s.sessions, s.hist, g); }
    }
    forall q | q in r.hist ensures ConnectionKnown(r.sessions, r.hist, r.nextGeneration, q) {
      if q in s.hist { assert ConnectionKnown(s.sessions, s.hist, s.nextGeneration, q); }
    }
    assert r.sessions.Keys == s.sessions.Keys + {fd};
    forall a, b | a in r.hist && b in r.hist && a.generation == b.generation ensures a == b {
      if a in s.hist { assert ConnectionKnown(s.sessions, s.hist, s.nextGeneration, a); }
      if b in s.hist { assert ConnectionKnown(s.sessions, s.hist, s.nextGeneration, b); }
    }
  }

  lemma ConnectedKeepsSending(cfg: Config, s: ServerState, fd: int)
    requires Core(cfg, s) && fd !in s.openFds
    ensures Sending(Connected(s, fd)) && Pipeline(cfg, Connected(s, fd))
  {
    AcceptIsFresh(cfg, s, fd);
    var r := Connected(s, fd);
    forall g | g in r.sessions ensures SendingSession(r.tokens, r.sessions[g]) {
      if g != fd { assert SendingSession(s.tokens, s.sessions[g]); }
    }
    forall g | g in r.sessions && RefOf(r.sessions[g]) in r.hist
      ensures OpenPipeline(cfg, r.hist[RefOf(r.sessions[g])], r.sessions[g].outbox)
    {
      if g != fd { assert SessionKnown(s.sessions, s.hist, g); }
    }
  }

  lemma ConnectedKeepsRest(cfg: Config, s: ServerState, fd: int)
    requires Core(cfg, s) && fd !in s.openFds
    ensures Owed(Connected(s, fd)) && Replies(Connected(s, fd))
  {
    AcceptIsFresh(cfg, s, fd);
    var ref := SessionRef(fd, s.nextGeneration);
    NewcomerIsOwedNothing(s, fd);
    NewcomerKeepsReplies(s.hist, s.outstanding, s.nextRequestId, ref);
  }

  lemma NewcomerIsOwedNothing(s: ServerState, fd: int)
    requires Owed(s) && AddressesIn(s.tokens, s.outstanding, s.hist.Keys)
    requires SessionRef(fd, s.nextGeneration) !in s.hist
    ensures Owed(Connected(s, fd))
  {
    assert OwedTo(s.outstanding, SessionRef(fd, s.nextGeneration)) == {};
  }

  lemma NewcomerKeepsReplies(hist: Histories, outstanding: set<Ticket>, next: nat, ref: SessionRef)
    requires RepliesIn(hist, outstanding, next) && ref !in hist
    ensures RepliesIn(hist[ref := History([], [], [], "", [], false, Open)], outstanding, next)
  {
    var h := hist[ref := History([], [], [], "", [], false, Open)];
    assert forall q, i, id: nat :: PendingAt(h, q, i, id) <==> PendingAt(hist, q, i, id);
    assert forall q, i, id: nat :: AnswerAt(h, q, i, id) <==> AnswerAt(hist, q, i, id);
    forall q, j, id: nat | PendingBefore(hist, q, j, id) ensures PendingBefore(h, q, j, id) {
      var i :| 0 <= i < j && PendingAt(hist, q, i, id);
      assert PendingAt(h, q, i, id);
    }
    forall q, id: nat | Answered(hist, q, id) ensures Answered(h, q, id) {
      var j :| AnswerAt(hist, q, j, id);
      assert AnswerAt(h, q, j, id);
    }
  }

  lemma AcceptIsConnect(cfg: Config, s: ServerState, fd: int)
    requires Core(cfg, s) && fd !in s.openFds
    ensures var ref := SessionRef(fd, s.nextGeneration);
            var greeted := QueueResponse(cfg, Connected(Consume(s, AcceptToken), fd), ref, Hello);
            OnAccept(cfg, s, Some(fd)) == WithAccept(PostRecv(greeted, ref))
  {
    AcceptIsFresh(cfg, s, fd);
  }

  function WithAccept(s: ServerState): ServerState {
    s.(tokens := s.tokens + multiset{AcceptToken})
  }
}

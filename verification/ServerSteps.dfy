/** Every handler keeps the core invariant. */
module ServerSteps {
  import opened World
  import opened Protocol
  import opened Server
  import opened ServerCore

  // ---------- Changes the core does not depend on ----------

  // Equal in everything the core speaks of.
  ghost predicate SameCore(s: ServerState, r: ServerState) {
    && r.sessions.Keys == s.sessions.Keys && r.openFds == s.openFds
    && (forall fd :: fd in s.sessions ==> SameCoreSession(s.sessions[fd], r.sessions[fd]))
    && r.nextRequestId == s.nextRequestId && r.nextGeneration == s.nextGeneration
    && r.outstanding == s.outstanding
    && r.hist.Keys == s.hist.Keys
    && (forall q :: q in s.hist ==> SameCoreHistory(s.hist[q], r.hist[q]))
  }

  predicate SameCoreSession(a: Session, b: Session) {
    && a.fd == b.fd && a.generation == b.generation && a.outbox == b.outbox
    && a.writeInFlight == b.writeInFlight && a.pendingDb == b.pendingDb
  }

  predicate SameCoreHistory(a: History, b: History) {
    a.queued == b.queued && a.sent == b.sent && a.ending == b.ending
  }

  // Sends in flight are the same; receives may differ.
  ghost predicate SameSends(s: ServerState, r: ServerState) {
    && (forall t: Token :: t.SendToken? ==> r.tokens[t] == s.tokens[t])
    && (forall t: Token :: t in r.tokens && t.RecvToken? ==> t.ref in s.hist)
  }

  lemma SameKeepsGenerations(s: ServerState, r: ServerState)
    requires Generations(s) && SameCore(s, r) && SameSends(s, r)
    ensures Generations(r)
  {
    forall fd | fd in r.sessions ensures SessionKnown(r.sessions, r.hist, fd) {
      assert SessionKnown(s.sessions, s.hist, fd) && SameCoreSession(s.sessions[fd], r.sessions[fd]);
    }
    forall q | q in r.hist ensures ConnectionKnown(r.sessions, r.hist, r.nextGeneration, q) {
      assert ConnectionKnown(s.sessions, s.hist, s.nextGeneration, q) && SameCoreHistory(s.hist[q], r.hist[q]);
    }
  }

  lemma SameKeepsSending(s: ServerState, r: ServerState)
    requires Sending(s) && SameCore(s, r) && SameSends(s, r)
    requires forall fd :: fd in r.sessions && r.sessions[fd].closeAfterFlush ==> r.sessions[fd].writeInFlight
    ensures Sending(r)
  {
    forall fd | fd in r.sessions ensures SendingSession(r.tokens, r.sessions[fd]) {
      assert SendingSession(s.tokens, s.sessions[fd]) && SameCoreSession(s.sessions[fd], r.sessions[fd]);
    }
    forall t | t in r.tokens && t.SendToken? && IsLive(r, t.ref)
      ensures var session := r.sessions[t.ref.fd];
              session.writeInFlight && session.outbox != [] && t.payload == session.outbox[0]
    {
      assert SameCoreSession(s.sessions[t.ref.fd], r.sessions[t.ref.fd]);
      assert t in s.tokens && IsLive(s, t.ref);
    }
  }

  lemma SameKeepsPipeline(cfg: Config, s: ServerState, r: ServerState)
    requires Pipeline(cfg, s) && SameCore(s, r)
    ensures Pipeline(cfg, r)
  {
    forall fd | fd in r.sessions && RefOf(r.sessions[fd]) in r.hist
      ensures OpenPipeline(cfg, r.hist[RefOf(r.sessions[fd])], r.sessions[fd].outbox)
    {
      assert SameCoreSession(s.sessions[fd], r.sessions[fd]);
      var q := RefOf(s.sessions[fd]);
      assert SameCoreHistory(s.hist[q], r.hist[q]);
      assert OpenPipeline(cfg, s.hist[q], s.sessions[fd].outbox);
    }
    forall q | q in r.hist ensures EndedPipeline(cfg, r.hist[q]) {
      assert SameCoreHistory(s.hist[q], r.hist[q]) && EndedPipeline(cfg, s.hist[q]);
    }
  }

  lemma SameKeepsOwed(s: ServerState, r: ServerState)
    requires Owed(s) && SameCore(s, r)
    ensures Owed(r)
  {
    forall fd | fd in r.sessions
      ensures r.sessions[fd].pendingDb == |OwedTo(r.outstanding, RefOf(r.sessions[fd]))|
    {
      assert SameCoreSession(s.sessions[fd], r.sessions[fd]);
    }
  }

  // Replies depend on the queues, the ids and the outstanding tickets only.
  lemma SameQueuesKeepReplies(s: ServerState, r: ServerState)
    requires Replies(s) && r.hist.Keys == s.hist.Keys
    requires forall q :: q in s.hist ==> s.hist[q].queued == r.hist[q].queued
    requires forall q :: q in s.hist && r.hist[q].ending == Open ==> s.hist[q].ending == Open
    requires s.nextRequestId <= r.nextRequestId && r.outstanding == s.outstanding
    ensures Replies(r)
  {
    assert forall q, i, id: nat :: PendingAt(r.hist, q, i, id) <==> PendingAt(s.hist, q, i, id);
    assert forall q, i, id: nat :: AnswerAt(r.hist, q, i, id) <==> AnswerAt(s.hist, q, i, id);
    forall q, j, id: nat | PendingBefore(s.hist, q, j, id) ensures PendingBefore(r.hist, q, j, id) {
      var i :| 0 <= i < j && PendingAt(s.hist, q, i, id);
      assert PendingAt(r.hist, q, i, id);
    }
    forall q, id: nat | Answered(s.hist, q, id) ensures Answered(r.hist, q, id) {
      var j :| AnswerAt(s.hist, q, j, id);
      assert AnswerAt(r.hist, q, j, id);
    }
  }

  lemma SameKeepsCore(cfg: Config, s: ServerState, r: ServerState)
    requires Core(cfg, s) && SameCore(s, r) && SameSends(s, r)
    requires forall fd :: fd in r.sessions && r.sessions[fd].closeAfterFlush ==> r.sessions[fd].writeInFlight
    ensures Core(cfg, r)
  {
    SameKeepsGenerations(s, r);
    SameKeepsSending(s, r);
    SameKeepsPipeline(cfg, s, r);
    SameKeepsOwed(s, r);
    forall q | q in s.hist ensures s.hist[q].queued == r.hist[q].queued && s.hist[q].ending == r.hist[q].ending {
      assert SameCoreHistory(s.hist[q], r.hist[q]);
    }
    SameQueuesKeepReplies(s, r);
  }

  lemma ClosingNeedsSend(cfg: Config, s: ServerState, fd: int)
    requires Core(cfg, s) && fd in s.sessions && s.sessions[fd].closeAfterFlush
    ensures s.sessions[fd].writeInFlight && s.sessions[fd].outbox != []
  {
    assert SendingSession(s.tokens, s.sessions[fd]);
  }

  // The common case: nothing but receives, buffers, the world, the job queue and the rest of the
  // histories may differ.
  lemma QuietKeepsCore(cfg: Config, s: ServerState, r: ServerState)
    requires Core(cfg, s) && SameCore(s, r) && SameSends(s, r)
    requires forall fd :: fd in s.sessions ==> r.sessions[fd].closeAfterFlush == s.sessions[fd].closeAfterFlush
    ensures Core(cfg, r)
  {
    forall fd | fd in r.sessions && r.sessions[fd].closeAfterFlush ensures r.sessions[fd].writeInFlight {
      ClosingNeedsSend(cfg, s, fd);
      assert SameCoreSession(s.sessions[fd], r.sessions[fd]);
    }
    SameKeepsCore(cfg, s, r);
  }

  // ---------- Events, closing flag, receives ----------

  lemma {:induction false} DeliverKeepsCore(cfg: Config, s: ServerState, events: seq<WorldEvent>)
    requires Core(cfg, s)
    ensures Core(cfg, Deliver(cfg, s, events))
  {
    if events == [] {
    } else {
      DeliverKeepsCore(cfg, s, events[..|events| - 1]);
      var last := events[|events| - 1];
      QueueKeepsCore(cfg, Deliver(cfg, s, events[..|events| - 1]), last.receiver, InWorld(last.line));
    }
  }

  lemma PublishKeepsCore(cfg: Config, s: ServerState, outcome: Outcome)
    requires Core(cfg, s)
    ensures Core(cfg, Publish(cfg, s, outcome))
  {
    QuietKeepsCore(cfg, s, s.(world := outcome.world));
    DeliverKeepsCore(cfg, s.(world := outcome.world), outcome.events);
  }

  lemma CloseAfterFlushKeepsCore(cfg: Config, s: ServerState, ref: SessionRef)
    requires Core(cfg, s) && IsLive(s, ref) && s.sessions[ref.fd].writeInFlight
    ensures Core(cfg, CloseAfterFlush(s, ref))
  {
    forall fd | fd in s.sessions && s.sessions[fd].closeAfterFlush ensures s.sessions[fd].writeInFlight {
      ClosingNeedsSend(cfg, s, fd);
    }
    SameKeepsCore(cfg, s, CloseAfterFlush(s, ref));
  }

  lemma QueuedIsInFlight(cfg: Config, s: ServerState, ref: SessionRef, reply: Reply)
    requires Core(cfg, s) && IsLive(s, ref)
    ensures var r := QueueResponse(cfg, s, ref, reply);
            IsLive(r, ref) && r.sessions[ref.fd].writeInFlight && r.sessions[ref.fd].outbox != []
  {
    QueueIsEnqueue(cfg, s, ref, reply);
  }

  lemma PostRecvKeepsCore(cfg: Config, s: ServerState, ref: SessionRef)
    requires Core(cfg, s) && ref in s.hist
    ensures Core(cfg, PostRecv(s, ref))
  {
    QuietKeepsCore(cfg, s, PostRecv(s, ref));
  }

  lemma ConsumeKeepsCore(cfg: Config, s: ServerState, token: Token)
    requires Core(cfg, s) && !token.SendToken?
    ensures Core(cfg, Consume(s, token))
  {
    QuietKeepsCore(cfg, s, Consume(s, token));
  }

  lemma NoteKeepsCore(cfg: Config, s: ServerState, ref: SessionRef, h: History)
    requires Core(cfg, s) && ref in s.hist && SameCoreHistory(s.hist[ref], h)
    ensures Core(cfg, Note(s, ref, h))
  {
    QuietKeepsCore(cfg, s, Note(s, ref, h));
  }

  // ---------- Database jobs ----------

  lemma SaveKeepsCore(cfg: Config, s: ServerState, ref: SessionRef, p: Place)
    requires Core(cfg, s) && ref in s.hist
    ensures Core(cfg, SubmitPositionSave(s, ref, p))
  {
    var r := SubmitPositionSave(s, ref, p);
    NoteKeepsCore(cfg, s, ref, r.hist[ref]);
    BackgroundTicketKeepsCore(cfg, Note(s, ref, r.hist[ref]), Ticket(ref, s.nextRequestId, false), r.jobs);
  }

  lemma BackgroundTicketKeepsCore(cfg: Config, s: ServerState, ticket: Ticket, jobs: seq<DbJob>)
    requires Core(cfg, s) && ticket.ref in s.hist && ticket.id == s.nextRequestId && !ticket.notify
    ensures Core(cfg, s.(nextRequestId := s.nextRequestId + 1, jobs := jobs, outstanding := s.outstanding + {ticket}))
  {
    BackgroundTicketKeepsOwed(s.sessions, s.outstanding, s.nextRequestId, ticket);
    BackgroundTicketKeepsReplies(s.hist, s.outstanding, s.nextRequestId, ticket);
  }

  lemma BackgroundTicketKeepsOwed(sessions: Sessions, outstanding: set<Ticket>, next: nat, ticket: Ticket)
    requires OwedIn(sessions, outstanding, next) && ticket.id == next && !ticket.notify
    ensures OwedIn(sessions, outstanding + {ticket}, next + 1)
  {
    forall fd | fd in sessions
      ensures OwedTo(outstanding + {ticket}, RefOf(sessions[fd])) == OwedTo(outstanding, RefOf(sessions[fd]))
    {
    }
  }

  lemma BackgroundTicketKeepsReplies(hist: Histories, outstanding: set<Ticket>, next: nat, ticket: Ticket)
    requires RepliesIn(hist, outstanding, next) && ticket.id == next && !ticket.notify
    ensures RepliesIn(hist, outstanding + {ticket}, next + 1)
  {
    forall r, j, id: nat | AnswerAt(hist, r, j, id) ensures id != ticket.id {
      var i :| 0 <= i < j && PendingAt(hist, r, i, id);
    }
  }

  // A request for the database: one more answer awaited, its id announced, its job submitted.
  lemma RequestIsAnnounce(cfg: Config, s: ServerState, ref: SessionRef, operation: DbOperation, r: Request)
    requires Core(cfg, s) && IsLive(s, ref)
    ensures RequestJob(cfg, s, ref, operation, r) ==
            Submit(Enqueued(cfg, Expect(s, ref), ref, Pending(s.nextRequestId, r.name)),
                   DbJob(Ticket(ref, s.nextRequestId, true), operation, r.name, r.args))
  {
    ExpectKeepsSending(cfg, s, ref);
    QueueIsEnqueue(cfg, Expect(s, ref), ref, Pending(s.nextRequestId, r.name));
  }

  lemma RequestKeepsCore(cfg: Config, s: ServerState, ref: SessionRef, operation: DbOperation, r: Request)
    requires Core(cfg, s) && IsLive(s, ref)
    ensures Core(cfg, RequestJob(cfg, s, ref, operation, r))
  {
    var id := s.nextRequestId;
    RequestIsAnnounce(cfg, s, ref, operation, r);
    AnnouncedKeepsCore(cfg, s, ref, r.name, DbJob(Ticket(ref, id, true), operation, r.name, r.args));
  }

  lemma AnnouncedKeepsSending(cfg: Config, s: ServerState, ref: SessionRef, reply: Reply)
    requires Core(cfg, s) && IsLive(s, ref)
    ensures var queued := Enqueued(cfg, Expect(s, ref), ref, reply);
            Generations(queued) && Sending(queued) && Pipeline(cfg, queued)
  {
    var expecting := Expect(s, ref);
    ExpectKeepsSending(cfg, s, ref);
    EnqueueKeepsGenerations(cfg, expecting, ref, reply);
    EnqueueKeepsSending(cfg, expecting, ref, reply);
    EnqueueKeepsPipeline(cfg, expecting, ref, reply);
  }

  lemma AnnouncedKeepsOwed(cfg: Config, s: ServerState, ref: SessionRef, reply: Reply)
    requires Core(cfg, s) && IsLive(s, ref)
    ensures OwedIn(Enqueued(cfg, Expect(s, ref), ref, reply).sessions,
                   s.outstanding + {Ticket(ref, s.nextRequestId, true)}, s.nextRequestId + 1)
  {
    var sessions := Enqueued(cfg, Expect(s, ref), ref, reply).sessions;
    forall fd | fd in sessions
      ensures RefOf(sessions[fd]) == RefOf(s.sessions[fd])
      ensures sessions[fd].pendingDb == s.sessions[fd].pendingDb + if fd == ref.fd then 1 else 0
    {
    }
    NewWaiterKeepsOwed(s, ref, sessions);
  }

  lemma AnnouncedKeepsCore(cfg: Config, s: ServerState, ref: SessionRef, name: string, job: DbJob)
    requires Core(cfg, s) && IsLive(s, ref) && job.ticket == Ticket(ref, s.nextRequestId, true)
    ensures Core(cfg, Submit(Enqueued(cfg, Expect(s, ref), ref, Pending(s.nextRequestId, name)), job))
  {
    var reply := Pending(s.nextRequestId, name);
    AnnouncedKeepsSending(cfg, s, ref, reply);
    AnnouncedKeepsOwed(cfg, s, ref, reply);
    AnnounceKeepsReplies(s.hist, s.outstanding, s.nextRequestId, ref, name);
  }

  // Sessions that differ in the answers they count only.
  ghost predicate SameButCount(a: Sessions, b: Sessions) {
    a.Keys == b.Keys && forall fd :: fd in a ==> b[fd] == a[fd].(pendingDb := b[fd].pendingDb)
  }

  lemma CountKeepsGenerations(a: Sessions, b: Sessions, openFds: set<int>, hist: Histories, next: nat)
    requires GenerationsIn(a, openFds, hist, next) && SameButCount(a, b)
    ensures GenerationsIn(b, openFds, hist, next)
  {
    forall fd | fd in b ensures SessionKnown(b, hist, fd) {
      assert SessionKnown(a, hist, fd);
    }
    forall q | q in hist ensures ConnectionKnown(b, hist, next, q) {
      assert ConnectionKnown(a, hist, next, q);
    }
  }

  lemma CountKeepsSends(a: Sessions, b: Sessions, tokens: multiset<Token>)
    requires SendingIn(a, tokens) && SameButCount(a, b)
    ensures SendingIn(b, tokens)
  {
    forall fd | fd in b ensures SendingSession(tokens, b[fd]) {
      assert SendingSession(tokens, a[fd]);
    }
  }

  lemma CountKeepsPipeline(cfg: Config, a: Sessions, b: Sessions, hist: Histories)
    requires PipelineIn(cfg, a, hist) && SameButCount(a, b)
    ensures PipelineIn(cfg, b, hist)
  {
    forall fd | fd in b && RefOf(b[fd]) in hist ensures OpenPipeline(cfg, hist[RefOf(b[fd])], b[fd].outbox) {
      assert OpenPipeline(cfg, hist[RefOf(a[fd])], a[fd].outbox);
    }
  }

  lemma ExpectKeepsSending(cfg: Config, s: ServerState, ref: SessionRef)
    requires Core(cfg, s) && IsLive(s, ref)
    ensures var e := Expect(s, ref);
            Generations(e) && Sending(e) && Pipeline(cfg, e) && IsLive(e, ref)
  {
    var e := Expect(s, ref);
    CountKeepsGenerations(s.sessions, e.sessions, s.openFds, s.hist, s.nextGeneration);
    CountKeepsSends(s.sessions, e.sessions, s.tokens);
    CountKeepsPipeline(cfg, s.sessions, e.sessions, s.hist);
  }

  lemma NewWaiterKeepsOwed(s: ServerState, ref: SessionRef, sessions: Sessions)
    requires Generations(s) && Owed(s) && IsLive(s, ref)
    requires sessions.Keys == s.sessions.Keys
    requires forall fd :: fd in sessions ==>
               && RefOf(sessions[fd]) == RefOf(s.sessions[fd])
               && sessions[fd].pendingDb == s.sessions[fd].pendingDb + if fd == ref.fd then 1 else 0
    ensures OwedIn(sessions, s.outstanding + {Ticket(ref, s.nextRequestId, true)}, s.nextRequestId + 1)
  {
    var t := Ticket(ref, s.nextRequestId, true);
    assert t !in s.outstanding;
    OwnerOf(s, t, sessions);
    forall fd | fd in sessions
      ensures sessions[fd].pendingDb == |OwedTo(s.outstanding + {t}, RefOf(sessions[fd]))|
    {
      OwedOneMore(s.outstanding, t, RefOf(sessions[fd]));
    }
  }

  lemma OwedOneMore(outstanding: set<Ticket>, t: Ticket, q: SessionRef)
    requires t !in outstanding && t.notify
    ensures |OwedTo(outstanding + {t}, q)| == |OwedTo(outstanding, q)| + if t.ref == q then 1 else 0
  {
    if t.ref == q {
      assert OwedTo(outstanding + {t}, q) == OwedTo(outstanding, q) + {t};
    } else {
      assert OwedTo(outstanding + {t}, q) == OwedTo(outstanding, q);
    }
  }

  // ---------- Completions ----------

  /** The count of pending answers of a session that gets one is positive: the guard on its decrement
      never fails. */
  lemma AwaitedIsCounted(cfg: Config, s: ServerState, t: Ticket)
    requires Core(cfg, s) && t in s.outstanding && t.notify && IsLive(s, t.ref)
    ensures s.sessions[t.ref.fd].pendingDb > 0
  {
    assert SessionKnown(s.sessions, s.hist, t.ref.fd);
    assert t in OwedTo(s.outstanding, t.ref);
  }

  lemma FewerWaitersKeepOwed(s: ServerState, t: Ticket, sessions: Sessions)
    requires Generations(s) && Owed(s) && t in s.outstanding
    requires sessions.Keys == s.sessions.Keys
    requires forall fd :: fd in sessions ==>
               && RefOf(sessions[fd]) == RefOf(s.sessions[fd])
               && sessions[fd].pendingDb + (if t.notify && RefOf(s.sessions[fd]) == t.ref then 1 else 0)
                  == s.sessions[fd].pendingDb
    ensures OwedIn(sessions, s.outstanding - {t}, s.nextRequestId)
  {
    forall fd | fd in sessions
      ensures sessions[fd].pendingDb == |OwedTo(s.outstanding - {t}, RefOf(sessions[fd]))|
    {
      var before := OwedTo(s.outstanding, RefOf(s.sessions[fd]));
      if t.notify && RefOf(s.sessions[fd]) == t.ref {
        assert t in before && OwedTo(s.outstanding - {t}, t.ref) == before - {t};
      } else {
        assert OwedTo(s.outstanding - {t}, RefOf(sessions[fd])) == before;
      }
    }
  }

  lemma CompletionKeepsCore(cfg: Config, s: ServerState, c: DbCompletion)
    requires Core(cfg, s) && c.ticket in s.outstanding
    ensures Core(cfg, OnCompletion(cfg, s, c))
  {
    var t, ref := c.ticket, c.ticket.ref;
    if t.notify && IsLive(s, ref) {
      AnsweredKeepsCore(cfg, s, c);
    } else {
      forall fd | fd in s.sessions ensures t.notify ==> RefOf(s.sessions[fd]) != ref {
        assert SessionKnown(s.sessions, s.hist, fd);
      }
      FewerWaitersKeepOwed(s, t, s.sessions);
      UnheardKeepsReplies(s, t);
    }
  }

  // Nobody hears the completion of a save, or of a request whose connection has ended.
  lemma UnheardKeepsReplies(s: ServerState, t: Ticket)
    requires Generations(s) && Replies(s) && t in s.outstanding && (t.notify ==> !IsLive(s, t.ref))
    ensures RepliesIn(s.hist, s.outstanding - {t}, s.nextRequestId)
  {
    if t.notify {
      assert ConnectionKnown(s.sessions, s.hist, s.nextGeneration, t.ref);
    }
  }

  // The state in which the answer is queued.
  function Answering(s: ServerState, t: Ticket): ServerState
    requires IsLive(s, t.ref) && s.sessions[t.ref.fd].pendingDb > 0
  {
    var session := s.sessions[t.ref.fd];
    s.(outstanding := s.outstanding - {t},
       sessions := s.sessions[t.ref.fd := session.(pendingDb := session.pendingDb - 1)])
  }

  lemma AnsweredKeepsCore(cfg: Config, s: ServerState, c: DbCompletion)
    requires Core(cfg, s) && c.ticket in s.outstanding && c.ticket.notify && IsLive(s, c.ticket.ref)
    ensures s.sessions[c.ticket.ref.fd].pendingDb > 0
    ensures OnCompletion(cfg, s, c) ==
            Enqueued(cfg, Answering(s, c.ticket), c.ticket.ref, Answer(c.ticket.id, c.ok, c.line))
    ensures Core(cfg, OnCompletion(cfg, s, c))
  {
    var t, ref, reply := c.ticket, c.ticket.ref, Answer(c.ticket.id, c.ok, c.line);
    AwaitedIsCounted(cfg, s, t);
    var a := Answering(s, t);
    AnsweringKeepsSending(cfg, s, t);
    QueueIsEnqueue(cfg, a, ref, reply);
    EnqueueKeepsGenerations(cfg, a, ref, reply);
    EnqueueKeepsSending(cfg, a, ref, reply);
    EnqueueKeepsPipeline(cfg, a, ref, reply);
    AnsweredKeepsReplies(cfg, s, c);
    AnsweredKeepsOwed(cfg, s, t, reply);
  }

  lemma AnsweredKeepsReplies(cfg: Config, s: ServerState, c: DbCompletion)
    requires Replies(s) && Owed(s) && c.ticket in s.outstanding && c.ticket.notify && IsLive(s, c.ticket.ref)
    requires s.sessions[c.ticket.ref.fd].pendingDb > 0 && c.ticket.ref in s.hist
    ensures Replies(Enqueued(cfg, Answering(s, c.ticket), c.ticket.ref, Answer(c.ticket.id, c.ok, c.line)))
  {
    AnswerKeepsReplies(s.hist, s.outstanding, s.nextRequestId, c.ticket, c.ok, c.line);
  }

  lemma AnsweredKeepsOwed(cfg: Config, s: ServerState, t: Ticket, reply: Reply)
    requires Generations(s) && Owed(s) && t in s.outstanding && t.notify && IsLive(s, t.ref)
    requires s.sessions[t.ref.fd].pendingDb > 0 && t.ref in s.hist
    ensures Owed(Enqueued(cfg, Answering(s, t), t.ref, reply))
  {
    var r := Enqueued(cfg, Answering(s, t), t.ref, reply);
    OwnerOf(s, t, r.sessions);
    FewerWaitersKeepOwed(s, t, r.sessions);
  }

  lemma OwnerOf(s: ServerState, t: Ticket, sessions: Sessions)
    requires Generations(s) && IsLive(s, t.ref)
    ensures forall fd :: fd in s.sessions ==> (RefOf(s.sessions[fd]) == t.ref <==> fd == t.ref.fd)
  {
    forall fd | fd in s.sessions ensures RefOf(s.sessions[fd]) == t.ref <==> fd == t.ref.fd {
      assert SessionKnown(s.sessions, s.hist, fd);
    }
  }

  lemma AnsweringKeepsSending(cfg: Config, s: ServerState, t: Ticket)
    requires Core(cfg, s) && IsLive(s, t.ref) && s.sessions[t.ref.fd].pendingDb > 0
    ensures var a := Answering(s, t);
            Generations(a) && Sending(a) && Pipeline(cfg, a) && IsLive(a, t.ref)
  {
    var a := Answering(s, t);
    CountKeepsGenerations(s.sessions, a.sessions, s.openFds, s.hist, s.nextGeneration);
    CountKeepsSends(s.sessions, a.sessions, s.tokens);
    CountKeepsPipeline(cfg, s.sessions, a.sessions, s.hist);
  }
}

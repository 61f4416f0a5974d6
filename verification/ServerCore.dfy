/** What every handler keeps: generations, the sending side of each session, the bytes it has
    queued and sent, the answers it is owed, and the order of the replies to requests. */
module ServerCore {
  import opened World
  import opened Server

  // ---------- Invariants ----------

  type Sessions = map<int, Session>
  type Histories = map<SessionRef, History>

  predicate LiveIn(sessions: Sessions, ref: SessionRef) {
    ref.fd in sessions && sessions[ref.fd].generation == ref.generation
  }

  predicate IsLive(s: ServerState, ref: SessionRef) {
    LiveIn(s.sessions, ref)
  }

  ghost predicate SessionKnown(sessions: Sessions, hist: Histories, fd: int)
    requires fd in sessions
  {
    var session := sessions[fd];
    session.fd == fd && RefOf(session) in hist && hist[RefOf(session)].ending == Open
  }

  ghost predicate ConnectionKnown(sessions: Sessions, hist: Histories, nextGeneration: nat, r: SessionRef)
    requires r in hist
  {
    r.generation < nextGeneration && (hist[r].ending == Open ==> LiveIn(sessions, r))
  }

  // Sessions are exactly the open connections, and every generation was given to one connection only.
  ghost predicate GenerationsIn(sessions: Sessions, openFds: set<int>, hist: Histories, nextGeneration: nat) {
    && sessions.Keys == openFds
    && (forall fd :: fd in sessions ==> SessionKnown(sessions, hist, fd))
    && (forall r :: r in hist ==> ConnectionKnown(sessions, hist, nextGeneration, r))
    && (forall a, b :: a in hist && b in hist && a.generation == b.generation ==> a == b)
  }

  // Whatever is in flight names a connection that exists or existed.
  ghost predicate AddressesIn(tokens: multiset<Token>, outstanding: set<Ticket>, refs: set<SessionRef>) {
    && (forall t :: t in tokens && (t.RecvToken? || t.SendToken?) ==> t.ref in refs)
    && (forall t :: t in outstanding ==> t.ref in refs)
  }

  ghost predicate Generations(s: ServerState) {
    && GenerationsIn(s.sessions, s.openFds, s.hist, s.nextGeneration)
    && AddressesIn(s.tokens, s.outstanding, s.hist.Keys)
  }

  ghost predicate SendingSession(tokens: multiset<Token>, session: Session) {
    && (session.writeInFlight <==> session.outbox != [])
    && (forall i :: 0 <= i < |session.outbox| ==> session.outbox[i] != "")
    && (session.writeInFlight ==> tokens[SendToken(RefOf(session), session.outbox[0])] == 1)
    && (session.closeAfterFlush ==> session.writeInFlight)
  }

  // A session has a send in flight iff it has something to send; that send is unique, its payload
  // is the front of the outbox, and a closing session always has one.
  ghost predicate SendingIn(sessions: Sessions, tokens: multiset<Token>) {
    && (forall fd :: fd in sessions ==> SendingSession(tokens, sessions[fd]))
    && (forall t :: t in tokens && t.SendToken? && LiveIn(sessions, t.ref) ==>
          var session := sessions[t.ref.fd];
          session.writeInFlight && session.outbox != [] && t.payload == session.outbox[0])
  }

  ghost predicate Sending(s: ServerState) {
    SendingIn(s.sessions, s.tokens)
  }

  function Flatten(outbox: seq<string>): string {
    if outbox == [] then "" else outbox[0] + Flatten(outbox[1..])
  }

  // The bytes of all lines queued for a connection.
  function Wire(cfg: Config, queued: seq<Reply>): string {
    if queued == [] then ""
    else Wire(cfg, queued[..|queued| - 1]) + Framed(cfg.text(queued[|queued| - 1]))
  }

  ghost predicate OpenPipeline(cfg: Config, h: History, outbox: seq<string>) {
    h.sent + Flatten(outbox) == Wire(cfg, h.queued)
  }

  ghost predicate EndedPipeline(cfg: Config, h: History) {
    && (h.ending == Flushed ==> h.sent == Wire(cfg, h.queued))
    && (h.ending == Dropped ==> h.sent <= Wire(cfg, h.queued))
  }

  // Bytes sent and bytes still queued are the lines queued, in order.
  ghost predicate PipelineIn(cfg: Config, sessions: Sessions, hist: Histories) {
    && (forall fd :: fd in sessions && RefOf(sessions[fd]) in hist ==>
          OpenPipeline(cfg, hist[RefOf(sessions[fd])], sessions[fd].outbox))
    && (forall r :: r in hist ==> EndedPipeline(cfg, hist[r]))
  }

  ghost predicate Pipeline(cfg: Config, s: ServerState) {
    PipelineIn(cfg, s.sessions, s.hist)
  }

  function OwedTo(outstanding: set<Ticket>, ref: SessionRef): set<Ticket> {
    set t | t in outstanding && t.notify && t.ref == ref
  }

  // Each session counts the answers it is still owed.
  ghost predicate OwedIn(sessions: Sessions, outstanding: set<Ticket>, nextRequestId: nat) {
    && (forall t :: t in outstanding ==> t.id < nextRequestId)
    && (forall a, b :: a in outstanding && b in outstanding && a.id == b.id ==> a == b)
    && (forall fd :: fd in sessions ==> sessions[fd].pendingDb == |OwedTo(outstanding, RefOf(sessions[fd]))|)
  }

  ghost predicate Owed(s: ServerState) {
    OwedIn(s.sessions, s.outstanding, s.nextRequestId)
  }

  ghost predicate PendingAt(hist: Histories, r: SessionRef, i: int, id: nat) {
    r in hist && 0 <= i < |hist[r].queued| && hist[r].queued[i].Pending? && hist[r].queued[i].id == id
  }

  ghost predicate AnswerAt(hist: Histories, r: SessionRef, i: int, id: nat) {
    r in hist && 0 <= i < |hist[r].queued| && hist[r].queued[i].Answer? && hist[r].queued[i].id == id
  }

  ghost predicate PendingBefore(hist: Histories, r: SessionRef, j: int, id: nat) {
    exists i :: 0 <= i < j && PendingAt(hist, r, i, id)
  }

  ghost predicate Answered(hist: Histories, r: SessionRef, id: nat) {
    exists j :: AnswerAt(hist, r, j, id)
  }

  // A request id is announced once; it is answered at most once, to the connection it was announced
  // to and after the announcement; whoever still waits has been announced and not been answered;
  // and on an open connection whatever was announced and not answered is still waited for.
  ghost predicate RepliesIn(hist: Histories, outstanding: set<Ticket>, nextRequestId: nat) {
    && (forall r, i, id: nat :: PendingAt(hist, r, i, id) ==> id < nextRequestId)
    && (forall r, i, q, j, id: nat :: PendingAt(hist, r, i, id) && PendingAt(hist, q, j, id) ==> r == q && i == j)
    && (forall r, j, id: nat :: AnswerAt(hist, r, j, id) ==> PendingBefore(hist, r, j, id))
    && (forall r, i, q, j, id: nat :: AnswerAt(hist, r, i, id) && AnswerAt(hist, q, j, id) ==> r == q && i == j)
    && (forall r, j, id: nat, t :: AnswerAt(hist, r, j, id) && t in outstanding ==> t.id != id)
    && (forall t :: t in outstanding && t.notify ==>
          t.ref in hist && PendingBefore(hist, t.ref, |hist[t.ref].queued|, t.id))
    && (forall r, i, id: nat :: PendingAt(hist, r, i, id) && hist[r].ending == Open ==>
          Ticket(r, id, true) in outstanding || Answered(hist, r, id))
  }

  ghost predicate Replies(s: ServerState) {
    RepliesIn(s.hist, s.outstanding, s.nextRequestId)
  }

  ghost predicate Core(cfg: Config, s: ServerState) {
    Generations(s) && Sending(s) && Pipeline(cfg, s) && Owed(s) && Replies(s)
  }

  // ---------- Queueing a line ----------

  // What queueing a line for a live session amounts to.
  function Enqueued(cfg: Config, s: ServerState, ref: SessionRef, reply: Reply): ServerState
    requires IsLive(s, ref) && ref in s.hist
  {
    var session := s.sessions[ref.fd];
    var line := Framed(cfg.text(reply));
    s.(sessions := s.sessions[ref.fd := session.(outbox := session.outbox + [line], writeInFlight := true)],
       tokens := if session.writeInFlight then s.tokens else s.tokens + multiset{SendToken(ref, line)},
       hist := WithReply(s.hist, ref, reply))
  }

  lemma QueueIsEnqueue(cfg: Config, s: ServerState, ref: SessionRef, reply: Reply)
    requires Generations(s) && Sending(s)
    ensures QueueResponse(cfg, s, ref, reply) ==
            if IsLive(s, ref) then Enqueued(cfg, s, ref, reply) else s
  {
    if IsLive(s, ref) {
      var session := s.sessions[ref.fd];
      assert RefOf(session) == ref;
      assert SendingSession(s.tokens, session);
    }
  }

  lemma EnqueueKeepsGenerations(cfg: Config, s: ServerState, ref: SessionRef, reply: Reply)
    requires Generations(s) && IsLive(s, ref)
    ensures Generations(Enqueued(cfg, s, ref, reply))
  {
    var r := Enqueued(cfg, s, ref, reply);
    assert SessionKnown(s.sessions, s.hist, ref.fd);
    forall fd | fd in r.sessions ensures SessionKnown(r.sessions, r.hist, fd) {
      assert SessionKnown(s.sessions, s.hist, fd);
    }
    forall q | q in r.hist ensures ConnectionKnown(r.sessions, r.hist, r.nextGeneration, q) {
      assert ConnectionKnown(s.sessions, s.hist, s.nextGeneration, q);
    }
    assert r.sessions.Keys == s.sessions.Keys && r.hist.Keys == s.hist.Keys;
  }

  lemma EnqueueKeepsSending(cfg: Config, s: ServerState, ref: SessionRef, reply: Reply)
    requires Generations(s) && Sending(s) && IsLive(s, ref)
    ensures Sending(Enqueued(cfg, s, ref, reply))
  {
    var r := Enqueued(cfg, s, ref, reply);
    assert SendingSession(s.tokens, s.sessions[ref.fd]);
    forall fd | fd in r.sessions ensures SendingSession(r.tokens, r.sessions[fd]) {
      assert SendingSession(s.tokens, s.sessions[fd]);
    }
  }

  lemma {:induction false} FlattenAppend(outbox: seq<string>, line: string)
    ensures Flatten(outbox + [line]) == Flatten(outbox) + line
  {
    if outbox == [] {
      assert [line][1..] == [];
    } else {
      FlattenAppend(outbox[1..], line);
      assert (outbox + [line])[1..] == outbox[1..] + [line];
    }
  }

  lemma WireAppend(cfg: Config, queued: seq<Reply>, reply: Reply)
    ensures Wire(cfg, queued + [reply]) == Wire(cfg, queued) + Framed(cfg.text(reply))
  {
    assert (queued + [reply])[..|queued|] == queued;
  }

  lemma OpenPipelineGrows(cfg: Config, h: History, outbox: seq<string>, reply: Reply)
    requires OpenPipeline(cfg, h, outbox)
    ensures OpenPipeline(cfg, h.(queued := h.queued + [reply]), outbox + [Framed(cfg.text(reply))])
  {
    FlattenAppend(outbox, Framed(cfg.text(reply)));
    WireAppend(cfg, h.queued, reply);
  }

  lemma EnqueueKeepsPipeline(cfg: Config, s: ServerState, ref: SessionRef, reply: Reply)
    requires Generations(s) && Pipeline(cfg, s) && IsLive(s, ref)
    ensures Pipeline(cfg, Enqueued(cfg, s, ref, reply))
  {
    var r := Enqueued(cfg, s, ref, reply);
    assert SessionKnown(s.sessions, s.hist, ref.fd);
    OpenPipelineGrows(cfg, s.hist[ref], s.sessions[ref.fd].outbox, reply);
    forall fd | fd in r.sessions && RefOf(r.sessions[fd]) in r.hist
      ensures OpenPipeline(cfg, r.hist[RefOf(r.sessions[fd])], r.sessions[fd].outbox)
    {
      assert SessionKnown(s.sessions, s.hist, fd);
    }
  }

  lemma EnqueueKeepsOwed(cfg: Config, s: ServerState, ref: SessionRef, reply: Reply)
    requires Generations(s) && Owed(s) && IsLive(s, ref)
    ensures Owed(Enqueued(cfg, s, ref, reply))
  {
  }

  function WithReply(hist: Histories, ref: SessionRef, reply: Reply): Histories
    requires ref in hist
  {
    hist[ref := hist[ref].(queued := hist[ref].queued + [reply])]
  }

  // Appending to one connection's queue keeps what was at each place before.
  lemma ReplyPlaces(hist: Histories, ref: SessionRef, reply: Reply)
    requires ref in hist
    ensures var n, h := |hist[ref].queued|, WithReply(hist, ref, reply);
            && (forall q, i, id: nat :: PendingAt(h, q, i, id) <==>
                  PendingAt(hist, q, i, id) || (q == ref && i == n && reply.Pending? && reply.id == id))
            && (forall q, i, id: nat :: AnswerAt(h, q, i, id) <==>
                  AnswerAt(hist, q, i, id) || (q == ref && i == n && reply.Answer? && reply.id == id))
            && (forall q, j, id: nat :: PendingBefore(hist, q, j, id) ==> PendingBefore(h, q, j, id))
            && (forall q, id: nat :: Answered(hist, q, id) ==> Answered(h, q, id))
  {
    var h := WithReply(hist, ref, reply);
    forall q, id: nat | Answered(hist, q, id) ensures Answered(h, q, id) {
      var j :| AnswerAt(hist, q, j, id);
      assert AnswerAt(h, q, j, id);
    }
    forall q, j, id: nat | PendingBefore(hist, q, j, id) ensures PendingBefore(h, q, j, id) {
      var i :| 0 <= i < j && PendingAt(hist, q, i, id);
      assert PendingAt(h, q, i, id);
    }
  }

  predicate IsNeutral(reply: Reply) {
    !reply.Pending? && !reply.Answer?
  }

  // Those who wait stay announced.
  lemma WaitersStayAnnounced(hist: Histories, outstanding: set<Ticket>, next: nat, ref: SessionRef, reply: Reply)
    requires ref in hist && RepliesIn(hist, outstanding, next)
    ensures var h := WithReply(hist, ref, reply);
            forall t :: t in outstanding && t.notify ==> t.ref in h && PendingBefore(h, t.ref, |h[t.ref].queued|, t.id)
  {
    ReplyPlaces(hist, ref, reply);
    var h := WithReply(hist, ref, reply);
    forall t | t in outstanding && t.notify ensures t.ref in h && PendingBefore(h, t.ref, |h[t.ref].queued|, t.id) {
      var i :| 0 <= i < |hist[t.ref].queued| && PendingAt(hist, t.ref, i, t.id);
      assert PendingAt(h, t.ref, i, t.id);
    }
  }

  lemma NeutralKeepsReplies(hist: Histories, outstanding: set<Ticket>, next: nat, ref: SessionRef, reply: Reply)
    requires ref in hist && RepliesIn(hist, outstanding, next) && IsNeutral(reply)
    ensures RepliesIn(WithReply(hist, ref, reply), outstanding, next)
  {
    ReplyPlaces(hist, ref, reply);
    WaitersStayAnnounced(hist, outstanding, next, ref, reply);
  }

  /** Announcing a new id and starting to wait for it. */
  lemma AnnounceKeepsReplies(
    hist: Histories, outstanding: set<Ticket>, next: nat, ref: SessionRef, name: string)
    requires ref in hist && RepliesIn(hist, outstanding, next)
    ensures RepliesIn(WithReply(hist, ref, Pending(next, name)), outstanding + {Ticket(ref, next, true)}, next + 1)
  {
    var reply := Pending(next, name);
    var h := WithReply(hist, ref, reply);
    ReplyPlaces(hist, ref, reply);
    WaitersStayAnnounced(hist, outstanding, next, ref, reply);
    assert PendingAt(h, ref, |hist[ref].queued|, next);
    forall q, j, id: nat | AnswerAt(h, q, j, id) ensures id != next {
      assert AnswerAt(hist, q, j, id);
      var i :| 0 <= i < j && PendingAt(hist, q, i, id);
    }
  }

  /** Answering whoever waits for an id, and no longer waiting. */
  lemma AnswerKeepsReplies(
    hist: Histories, outstanding: set<Ticket>, next: nat, t: Ticket, ok: bool, line: string)
    requires RepliesIn(hist, outstanding, next) && t in outstanding && t.notify
    requires forall a, b :: a in outstanding && b in outstanding && a.id == b.id ==> a == b
    ensures t.ref in hist && RepliesIn(WithReply(hist, t.ref, Answer(t.id, ok, line)), outstanding - {t}, next)
  {
    var reply := Answer(t.id, ok, line);
    var h := WithReply(hist, t.ref, reply);
    ReplyPlaces(hist, t.ref, reply);
    WaitersStayAnnounced(hist, outstanding, next, t.ref, reply);
    assert PendingBefore(h, t.ref, |hist[t.ref].queued|, t.id);
    assert AnswerAt(h, t.ref, |hist[t.ref].queued|, t.id);
    forall q, i, id: nat | PendingAt(h, q, i, id) && h[q].ending == Open
      ensures Ticket(q, id, true) in outstanding - {t} || Answered(h, q, id)
    {
      assert PendingAt(hist, q, i, id);
    }
  }

  lemma QueueKeepsCore(cfg: Config, s: ServerState, ref: SessionRef, reply: Reply)
    requires Core(cfg, s) && IsNeutral(reply)
    ensures Core(cfg, QueueResponse(cfg, s, ref, reply))
  {
    QueueIsEnqueue(cfg, s, ref, reply);
    if IsLive(s, ref) {
      EnqueueKeepsGenerations(cfg, s, ref, reply);
      EnqueueKeepsSending(cfg, s, ref, reply);
      EnqueueKeepsPipeline(cfg, s, ref, reply);
      EnqueueKeepsOwed(cfg, s, ref, reply);
      NeutralKeepsReplies(s.hist, s.outstanding, s.nextRequestId, ref, reply);
    }
  }
}

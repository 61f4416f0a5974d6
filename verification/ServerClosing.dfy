/** Closing, accepting and acknowledged sends keep the core invariant.  Closing leaves the world
    before it drops the session; since a leaver is told nothing, that is the same as dropping the
    session first. */
module ServerClosing {
  import W = World
  import opened World
  import opened Server
  import opened ServerCore
  import opened ServerSteps

  // ---------- A leaver is told nothing ----------

  ghost predicate NotTold(events: seq<WorldEvent>, ref: SessionRef) {
    forall e :: e in events ==> e.receiver != ref
  }

  lemma {:induction false} NoLinesNotTold(events: seq<WorldEvent>, ref: SessionRef)
    requires LinesFor(events, ref) == []
    ensures NotTold(events, ref)
  {
    if events == [] {
    } else {
      NoLinesNotTold(events[..|events| - 1], ref);
      assert events == events[..|events| - 1] + [events[|events| - 1]];
    }
  }

  lemma LeaverNotTold(w: WorldState, order: Order, ref: SessionRef)
    requires IndexValid(w) && ValidOrder(order)
    ensures NotTold(W.Leave(w, order, ref).events, ref)
  {
    if ref in w.players {
      LeaveNotifies(w, order, ref, ref);
      NoLinesNotTold(W.Leave(w, order, ref).events, ref);
    }
  }

  // ---------- Dropping a session ----------

  function Erased(s: ServerState, ref: SessionRef, ending: Ending): ServerState {
    var h := HistoryOf(s, ref);
    Note(s.(sessions := s.sessions - {ref.fd}, openFds := s.openFds - {ref.fd}), ref, h.(ending := ending))
  }

  lemma PushThenErase(cfg: Config, s: ServerState, ref: SessionRef, ending: Ending, q: SessionRef, reply: Reply)
    requires IsLive(s, q) && q.fd != ref.fd
    ensures IsLive(Erased(s, ref, ending), q)
    ensures PushBack(cfg, Erased(s, ref, ending), q, reply) == Erased(PushBack(cfg, s, q, reply), ref, ending)
  {
    var session := s.sessions[q.fd];
    OtherKey(s.sessions, q.fd, session.(outbox := session.outbox + [Framed(cfg.text(reply))]), ref.fd);
    var h, own := HistoryOf(s, q), HistoryOf(s, ref);
    TwoKeys(s.hist, q, h.(queued := h.queued + [reply]), ref, own.(ending := ending));
  }

  lemma OtherKey<K, V>(m: map<K, V>, a: K, v: V, b: K)
    requires a != b
    ensures (m - {b})[a := v] == m[a := v] - {b}
  {
  }

  lemma TwoKeys<K, V>(m: map<K, V>, a: K, v: V, b: K, w: V)
    requires a != b
    ensures m[a := v][b := w] == m[b := w][a := v]
  {
  }

  lemma PostThenErase(s: ServerState, ref: SessionRef, ending: Ending, fd: int)
    requires fd != ref.fd
    ensures PostSend(Erased(s, ref, ending), fd) == Erased(PostSend(s, fd), ref, ending)
  {
    var a := PostSend(Erased(s, ref, ending), fd);
    var b := Erased(PostSend(s, fd), ref, ending);
    assert a.sessions == b.sessions;
  }

  lemma QueueThenErase(cfg: Config, s: ServerState, ref: SessionRef, ending: Ending, q: SessionRef, reply: Reply)
    requires IsLive(s, ref) && s.sessions[ref.fd].fd == ref.fd && q != ref
    ensures QueueResponse(cfg, Erased(s, ref, ending), q, reply) == Erased(QueueResponse(cfg, s, q, reply), ref, ending)
    ensures var r := QueueResponse(cfg, s, q, reply);
            IsLive(r, ref) && r.sessions[ref.fd] == s.sessions[ref.fd]
  {
    if IsLive(s, q) {
      PushThenErase(cfg, s, ref, ending, q, reply);
      PostThenErase(PushBack(cfg, s, q, reply), ref, ending, q.fd);
    }
  }

  lemma {:induction false} DeliverThenErase(
    cfg: Config, s: ServerState, ref: SessionRef, ending: Ending, events: seq<WorldEvent>)
    requires IsLive(s, ref) && s.sessions[ref.fd].fd == ref.fd && NotTold(events, ref)
    ensures Deliver(cfg, Erased(s, ref, ending), events) == Erased(Deliver(cfg, s, events), ref, ending)
    ensures var r := Deliver(cfg, s, events);
            IsLive(r, ref) && r.sessions[ref.fd] == s.sessions[ref.fd]
  {
    if events == [] {
    } else {
      var most, last := events[..|events| - 1], events[|events| - 1];
      DeliverThenErase(cfg, s, ref, ending, most);
      QueueThenErase(cfg, Deliver(cfg, s, most), ref, ending, last.receiver, InWorld(last.line));
    }
  }

  lemma SaveThenErase(s: ServerState, ref: SessionRef, ending: Ending, snapshot: PlayerSnapshot)
    requires IsLive(s, ref)
    ensures DepartWith(Erased(s, ref, ending), ref, snapshot) == Erased(DepartWith(s, ref, snapshot), ref, ending)
    ensures DepartWith(s, ref, snapshot).sessions == s.sessions
  {
  }

  /** Closing a session is dropping it and then leaving the world for it. */
  lemma CloseIsErase(cfg: Config, s: ServerState, ref: SessionRef, ending: Ending)
    requires IsLive(s, ref) && s.sessions[ref.fd].fd == ref.fd
    requires IndexValid(s.world) && ValidOrder(cfg.order)
    ensures CloseSession(cfg, s, ref.fd, ending) == Depart(cfg, Erased(s, ref, ending), ref)
  {
    var left := W.Leave(s.world, cfg.order, ref);
    LeaverNotTold(s.world, cfg.order, ref);
    var s1 := s.(world := left.world);
    DeliverThenErase(cfg, s1, ref, ending, left.events);
    assert Erased(s, ref, ending).(world := left.world) == Erased(s1, ref, ending);
    SaveThenErase(Deliver(cfg, s1, left.events), ref, ending, SnapshotOf(s.world, ref));
  }

  // ---------- Without the session the core still holds ----------

  // The state without a session, whatever became of its own send and of the rest of its history.
  function Without(s: ServerState, ref: SessionRef, tokens: multiset<Token>, h: History): ServerState {
    s.(sessions := s.sessions - {ref.fd}, openFds := s.openFds - {ref.fd}, tokens := tokens, hist := s.hist[ref := h])
  }

  ghost predicate FewerOwnSends(tokens: multiset<Token>, before: multiset<Token>, ref: SessionRef) {
    && (forall t :: t in tokens ==> t in before)
    && (forall t: Token :: t.SendToken? && t.ref != ref ==> tokens[t] == before[t])
  }

  lemma WithoutKeepsGenerations(s: ServerState, ref: SessionRef, tokens: multiset<Token>, h: History)
    requires Generations(s) && IsLive(s, ref) && FewerOwnSends(tokens, s.tokens, ref) && h.ending != Open
    ensures Generations(Without(s, ref, tokens, h))
  {
    var r := Without(s, ref, tokens, h);
    assert SessionKnown(s.sessions, s.hist, ref.fd);
    forall fd | fd in r.sessions ensures SessionKnown(r.sessions, r.hist, fd) {
      assert SessionKnown(s.sessions, s.hist, fd);
    }
    forall q | q in r.hist ensures ConnectionKnown(r.sessions, r.hist, r.nextGeneration, q) {
      assert ConnectionKnown(s.sessions, s.hist, s.nextGeneration, q);
    }
    assert r.hist.Keys == s.hist.Keys;
  }

  lemma WithoutKeepsSending(s: ServerState, ref: SessionRef, tokens: multiset<Token>)
    requires Generations(s) && Sending(s) && IsLive(s, ref) && FewerOwnSends(tokens, s.tokens, ref)
    ensures SendingIn(s.sessions - {ref.fd}, tokens)
  {
    var sessions := s.sessions - {ref.fd};
    forall fd | fd in sessions ensures SendingSession(tokens, sessions[fd]) {
      assert SendingSession(s.tokens, s.sessions[fd]) && SessionKnown(s.sessions, s.hist, fd);
      assert RefOf(s.sessions[fd]) != ref;
    }
  }

  lemma WithoutKeepsCore(cfg: Config, s: ServerState, ref: SessionRef, tokens: multiset<Token>, h: History)
    requires Core(cfg, s) && IsLive(s, ref) && FewerOwnSends(tokens, s.tokens, ref)
    requires h.ending != Open && h.queued == s.hist[ref].queued && EndedPipeline(cfg, h)
    ensures Core(cfg, Without(s, ref, tokens, h))
  {
    WithoutKeepsGenerations(s, ref, tokens, h);
    WithoutKeepsSending(s, ref, tokens);
    WithoutKeepsPipeline(cfg, s, ref, h);
    assert SessionKnown(s.sessions, s.hist, ref.fd);
    SameQueuesKeepReplies(s, Without(s, ref, tokens, h));
  }

  lemma WithoutKeepsPipeline(cfg: Config, s: ServerState, ref: SessionRef, h: History)
    requires Generations(s) && Pipeline(cfg, s) && IsLive(s, ref) && EndedPipeline(cfg, h)
    ensures PipelineIn(cfg, s.sessions - {ref.fd}, s.hist[ref := h])
  {
    var sessions, hist := s.sessions - {ref.fd}, s.hist[ref := h];
    forall fd | fd in sessions && RefOf(sessions[fd]) in hist
      ensures OpenPipeline(cfg, hist[RefOf(sessions[fd])], sessions[fd].outbox)
    {
      assert SessionKnown(s.sessions, s.hist, fd);
    }
  }

  lemma OpenIsPrefix(cfg: Config, s: ServerState, ref: SessionRef)
    requires Core(cfg, s) && IsLive(s, ref)
    ensures ref in s.hist && s.hist[ref].ending == Open
    ensures OpenPipeline(cfg, s.hist[ref], s.sessions[ref.fd].outbox)
    ensures s.hist[ref].sent <= Wire(cfg, s.hist[ref].queued)
  {
    assert SessionKnown(s.sessions, s.hist, ref.fd);
  }

  lemma {:induction false} DeliverKeepsConnections(cfg: Config, s: ServerState, events: seq<WorldEvent>)
    requires Core(cfg, s)
    ensures Deliver(cfg, s, events).hist.Keys == s.hist.Keys
  {
    if events == [] {
    } else {
      var most, last := events[..|events| - 1], events[|events| - 1];
      DeliverKeepsConnections(cfg, s, most);
      DeliverKeepsCore(cfg, s, most);
      QueueIsEnqueue(cfg, Deliver(cfg, s, most), last.receiver, InWorld(last.line));
    }
  }

  lemma DepartKeepsCore(cfg: Config, s: ServerState, ref: SessionRef)
    requires Core(cfg, s) && ref in s.hist
    ensures Core(cfg, Depart(cfg, s, ref))
  {
    var left := W.Leave(s.world, cfg.order, ref);
    PublishKeepsCore(cfg, s, left);
    QuietKeepsCore(cfg, s, s.(world := left.world));
    DeliverKeepsConnections(cfg, s.(world := left.world), left.events);
    var snapshot := SnapshotOf(s.world, ref);
    if snapshot.account != "" {
      SaveKeepsCore(cfg, Publish(cfg, s, left), ref,
                    Place(snapshot.account, snapshot.character, snapshot.x, snapshot.y));
    }
  }

  // Closing in a state that lacks only the session's own send.
  lemma CloseKeepsCore(cfg: Config, s: ServerState, ref: SessionRef, s1: ServerState, ending: Ending)
    requires Core(cfg, s) && IsLive(s, ref) && IndexValid(s.world) && ValidOrder(cfg.order)
    requires IsLive(s1, ref) && s1.sessions[ref.fd].fd == ref.fd && ref in s1.hist && ending != Open
    requires FewerOwnSends(s1.tokens, s.tokens, ref)
    requires s1.hist[ref].queued == s.hist[ref].queued && EndedPipeline(cfg, s1.hist[ref].(ending := ending))
    requires Erased(s1, ref, ending) == Without(s, ref, s1.tokens, s1.hist[ref].(ending := ending))
    ensures Core(cfg, CloseSession(cfg, s1, ref.fd, ending))
  {
    WithoutKeepsCore(cfg, s, ref, s1.tokens, s1.hist[ref].(ending := ending));
    CloseIsErase(cfg, s1, ref, ending);
    DepartKeepsCore(cfg, Erased(s1, ref, ending), ref);
  }

  lemma DropKeepsCore(cfg: Config, s: ServerState, ref: SessionRef)
    requires Core(cfg, s) && IsLive(s, ref) && IndexValid(s.world) && ValidOrder(cfg.order)
    ensures Core(cfg, CloseSession(cfg, s, ref.fd, Dropped))
  {
    OpenIsPrefix(cfg, s, ref);
    assert SessionKnown(s.sessions, s.hist, ref.fd);
    CloseKeepsCore(cfg, s, ref, s, Dropped);
  }

  /** Outside the send handler closing after the flush never closes: a closing session has a send in flight. */
  lemma NothingToFlush(cfg: Config, s: ServerState, fd: int)
    requires Core(cfg, s)
    ensures MaybeCloseAfterFlush(cfg, s, fd) == s
  {
    if fd in s.sessions && s.sessions[fd].closeAfterFlush {
      ClosingNeedsSend(cfg, s, fd);
    }
  }
}

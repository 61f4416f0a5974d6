/** The whole invariant of the event loop at every step boundary, kept by every handler. */
module ServerInvariant {
  import opened World
  import opened Server
  import opened ServerCore
  import opened ServerClosing
  import opened ServerLines
  import opened ServerPlaces
  import opened ServerViews
  import opened ServerRecv

  ghost predicate Reading(cfg: Config, s: ServerState, busy: set<SessionRef>) {
    FramingIn(cfg, s.sessions, s.hist, busy) && ReceivingIn(s.sessions, s.tokens, busy) && ChunksIn(cfg, s.hist)
  }

  ghost predicate Settled(cfg: Config, s: ServerState) {
    Core(cfg, s) && Places(s) && ViewsIn(s.world, s.hist)
  }

  ghost predicate Inv(cfg: Config, s: ServerState) {
    && !s.terminated
    && Settled(cfg, s) && Reading(cfg, s, {})
    && s.tokens[AcceptToken] == 1
  }

  // An exception that leaves the event loop ends everything: nothing is claimed after it.
  ghost predicate TerminatedOrInv(cfg: Config, s: ServerState) {
    s.terminated || Inv(cfg, s)
  }

  lemma InitialInv(cfg: Config)
    ensures Inv(cfg, Initial())
  {
    var s := Initial();
    assert IndexValid(s.world);
    assert forall q, i, id: nat :: !PendingAt(s.hist, q, i, id) && !AnswerAt(s.hist, q, i, id);
  }

  // ---------- Reading is untouched by sending ----------

  predicate SameReadingSession(a: Session, b: Session) {
    a.fd == b.fd && a.generation == b.generation && a.input == b.input && a.closeAfterFlush == b.closeAfterFlush
  }

  predicate SameReadingHistory(a: History, b: History) {
    a.chunks == b.chunks && a.lines == b.lines
  }

  // Sessions may have gone, the others read as before.
  ghost predicate ReadsSame(s: ServerState, r: ServerState) {
    && r.sessions.Keys <= s.sessions.Keys
    && (forall fd :: fd in r.sessions ==> SameReadingSession(s.sessions[fd], r.sessions[fd]))
    && r.hist.Keys == s.hist.Keys
    && (forall q :: q in s.hist ==> SameReadingHistory(s.hist[q], r.hist[q]))
  }

  ghost predicate SameReceives(s: ServerState, r: ServerState) {
    forall fd :: fd in r.sessions ==>
      r.tokens[RecvToken(RefOf(r.sessions[fd]))] == s.tokens[RecvToken(RefOf(r.sessions[fd]))]
  }

  lemma ReadingUnder(cfg: Config, s: ServerState, r: ServerState, busy: set<SessionRef>)
    requires Reading(cfg, s, busy) && ReadsSame(s, r) && SameReceives(s, r)
    ensures Reading(cfg, r, busy)
  {
    forall q | q in r.hist
      ensures ChunksRight(cfg, r.hist[q]) && (q !in busy ==> r.hist[q].lines == FramerOf(cfg, r.hist[q]).lines)
    {
      assert SameReadingHistory(s.hist[q], r.hist[q]) && ChunksRight(cfg, s.hist[q]);
    }
    forall fd | fd in r.sessions && RefOf(r.sessions[fd]) in r.hist && RefOf(r.sessions[fd]) !in busy
      ensures FramedSession(cfg, r.sessions[fd], r.hist[RefOf(r.sessions[fd])])
    {
      assert SameReadingSession(s.sessions[fd], r.sessions[fd]);
      var q := RefOf(s.sessions[fd]);
      assert SameReadingHistory(s.hist[q], r.hist[q]);
      assert FramedSession(cfg, s.sessions[fd], s.hist[q]);
    }
    forall fd | fd in r.sessions
      ensures r.tokens[RecvToken(RefOf(r.sessions[fd]))] ==
              if r.sessions[fd].closeAfterFlush || RefOf(r.sessions[fd]) in busy then 0 else 1
    {
      assert SameReadingSession(s.sessions[fd], r.sessions[fd]);
    }
  }

  lemma QuietReadsSame(s: ServerState, r: ServerState)
    requires Quiet(s, r)
    ensures ReadsSame(s, r) && SameReceives(s, r)
  {
    forall fd | fd in r.sessions ensures SameReadingSession(s.sessions[fd], r.sessions[fd]) {
      assert SameButSending(s.sessions[fd], r.sessions[fd]);
    }
    forall q | q in s.hist ensures SameReadingHistory(s.hist[q], r.hist[q]) {
      assert QuietHistory(s.hist[q], r.hist[q]);
    }
  }

  // ---------- Closing ----------

  lemma CloseReadsSame(cfg: Config, s: ServerState, ref: SessionRef, ending: Ending)
    requires Core(cfg, Erased(s, ref, ending)) && IsLive(s, ref) && s.sessions[ref.fd].fd == ref.fd && ref in s.hist
    requires IndexValid(s.world) && ValidOrder(cfg.order)
    ensures var r := CloseSession(cfg, s, ref.fd, ending);
            && ReadsSame(s, r) && SameReceives(s, r) && r.terminated == s.terminated
            && r.tokens[AcceptToken] == s.tokens[AcceptToken] && r.tokens[DatabaseToken] == s.tokens[DatabaseToken]
  {
    CloseIsErase(cfg, s, ref, ending);
    DepartEffect(cfg, Erased(s, ref, ending), ref);
    ErasedReadsSame(s, Depart(cfg, Erased(s, ref, ending), ref), ref, ending);
  }

  lemma ErasedReadsSame(s: ServerState, r: ServerState, ref: SessionRef, ending: Ending)
    requires ref in s.hist && SameSessions(Erased(s, ref, ending), r)
    requires r.hist.Keys == s.hist.Keys && SameReadingHistory(s.hist[ref], r.hist[ref])
    requires forall q :: q in s.hist && q != ref ==> QuietHistory(s.hist[q], r.hist[q])
    requires SameOtherTokens(s.tokens, r.tokens)
    ensures ReadsSame(s, r) && SameReceives(s, r)
  {
    var e := Erased(s, ref, ending);
    forall fd | fd in r.sessions ensures SameReadingSession(s.sessions[fd], r.sessions[fd]) {
      assert SameButSending(e.sessions[fd], r.sessions[fd]);
    }
    forall q | q in s.hist ensures SameReadingHistory(s.hist[q], r.hist[q]) {
      assert q != ref ==> QuietHistory(s.hist[q], r.hist[q]);
    }
  }

  // Closing, from a state that lacks at most the session's own send.
  lemma CloseKeepsInv(cfg: Config, s: ServerState, ref: SessionRef, ending: Ending)
    requires Core(cfg, CloseSession(cfg, s, ref.fd, ending)) && Core(cfg, Erased(s, ref, ending))
    requires !s.terminated && Places(s) && ViewsIn(s.world, s.hist) && Reading(cfg, s, {ref})
    requires IsLive(s, ref) && s.sessions[ref.fd].fd == ref.fd && ref in s.hist && s.hist[ref].ending == Open
    requires s.hist[ref].lines == FramerOf(cfg, s.hist[ref]).lines
    requires s.tokens[AcceptToken] == 1 && ValidOrder(cfg.order) && ending != Open
    ensures Inv(cfg, CloseSession(cfg, s, ref.fd, ending))
    ensures CloseSession(cfg, s, ref.fd, ending).tokens[DatabaseToken] == s.tokens[DatabaseToken]
  {
    var r := CloseSession(cfg, s, ref.fd, ending);
    CloseKeepsPlaces(cfg, s, ref, ending);
    CloseKeepsViews(cfg, s, ref, ending);
    CloseReadsSame(cfg, s, ref, ending);
    ReadingUnder(cfg, s, r, {ref});
    GoneIsNotBusy(cfg, s, r, ref);
  }

  lemma GoneIsNotBusy(cfg: Config, s: ServerState, r: ServerState, ref: SessionRef)
    requires Generations(r) && Reading(cfg, r, {ref}) && ref in s.hist && ReadsSame(s, r)
    requires s.hist[ref].lines == FramerOf(cfg, s.hist[ref]).lines && !IsLive(r, ref)
    ensures Reading(cfg, r, {})
  {
    assert SameReadingHistory(s.hist[ref], r.hist[ref]);
    forall fd | fd in r.sessions ensures RefOf(r.sessions[fd]) != ref {
      assert SessionKnown(r.sessions, r.hist, fd);
    }
  }
}

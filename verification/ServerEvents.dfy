/** Every world event that a handler delivers is for a session that is live at that moment, also in the
    middle of a chunk, so none is discarded. */
module ServerEvents {
  import W = World
  import opened World
  import F = Framing
  import opened Server
  import opened ServerCore
  import opened ServerSteps
  import opened ServerClosing
  import opened ServerLines
  import opened ServerPlaces
  import opened ServerViews
  import opened ServerRecv
  import opened ServerInvariant
  import opened ServerHandlers

  ghost predicate Heard(s: ServerState, events: seq<WorldEvent>) {
    forall e :: e in events ==> IsLive(s, e.receiver)
  }

  ghost predicate OpHeard(cfg: Config, s: ServerState, op: Op) {
    Heard(s, W.Apply(s.world, cfg.order, op).events)
  }

  /** Every event of an operation by a live session is for a live session, in every state in which the
      players are live sessions, between the lines of a chunk too. */
  lemma OpIsHeard(cfg: Config, s: ServerState, op: Op)
    requires Places(s) && ValidOrder(cfg.order) && IsLive(s, op.ref)
    ensures OpHeard(cfg, s, op)
  {
    var events := W.Apply(s.world, cfg.order, op).events;
    forall e | e in events ensures IsLive(s, e.receiver) {
      if e.receiver != op.ref && e.receiver !in s.world.players {
        StrangersNotTold(s.world, cfg.order, op, e.receiver);
        ToldAreReceivers(events, e);
      }
    }
  }

  /** And such events are all queued, each for its receiver, after what was queued before. */
  lemma HeardIsTold(cfg: Config, s: ServerState, events: seq<WorldEvent>, e: WorldEvent)
    requires Core(cfg, s) && Heard(s, events) && e in events
    ensures var r, q := Deliver(cfg, s, events), e.receiver;
            && q in s.hist && q in r.hist && IsLive(r, q)
            && Told(r.hist[q].queued) == Told(s.hist[q].queued) + LinesFor(events, q)
            && e.line in LinesFor(events, q)
  {
    OpenIsPrefix(cfg, s, e.receiver);
    DeliverTells(cfg, s, events, e.receiver);
    ToldAreReceivers(events, e);
  }

  // The events of every line that the receive loop handles, each in the state it is handled in.
  ghost predicate LinesHeard(cfg: Config, s: ServerState, ref: SessionRef)
    requires SessionMatches(s, ref)
    decreases |s.sessions[ref.fd].input|
  {
    match F.FindNewline(s.sessions[ref.fd].input)
    case None => true
    case Some(n) =>
      NextLineShortens(cfg, s, ref, n);
      var op, s1 := LineOp(ref, s.sessions[ref.fd].input[..n]), NextLine(cfg, s, ref, n);
      && (op.Some? ==> OpHeard(cfg, CutLine(s, ref, n), op.value))
      && (s1.terminated || s1.sessions[ref.fd].closeAfterFlush || LinesHeard(cfg, s1, ref))
  }

  lemma {:induction false} LinesAreHeard(cfg: Config, s: ServerState, ref: SessionRef)
    requires Handling(cfg, s, ref) && ValidOrder(cfg.order) && !s.terminated && !s.sessions[ref.fd].closeAfterFlush
    ensures LinesHeard(cfg, s, ref)
    decreases |s.sessions[ref.fd].input|
  {
    match F.FindNewline(s.sessions[ref.fd].input)
    case None =>
    case Some(n) =>
      var line, s1 := s.sessions[ref.fd].input[..n], NextLine(cfg, s, ref, n);
      NextLineAround(cfg, s, ref, n);
      LineIsHeard(cfg, s, ref, n);
      if !(s1.terminated || s1.sessions[ref.fd].closeAfterFlush) {
        LinesAreHeard(cfg, s1, ref);
      }
  }

  lemma LineIsHeard(cfg: Config, s: ServerState, ref: SessionRef, n: nat)
    requires Handling(cfg, s, ref) && ValidOrder(cfg.order) && n < |s.sessions[ref.fd].input|
    ensures var op := LineOp(ref, s.sessions[ref.fd].input[..n]);
            op.Some? ==> OpHeard(cfg, CutLine(s, ref, n), op.value)
  {
    var op := LineOp(ref, s.sessions[ref.fd].input[..n]);
    if op.Some? {
      CutLineKeeps(cfg, s, ref, n);
      LineOpFor(ref, s.sessions[ref.fd].input[..n]);
      OpIsHeard(cfg, CutLine(s, ref, n), op.value);
    }
  }

  // The events of a whole chunk, or of the departure when there is none.
  ghost predicate RecvHeard(cfg: Config, s: ServerState, ref: SessionRef, chunk: string) {
    var s0 := Consume(s, RecvToken(ref));
    IsLive(s0, ref) ==>
      if chunk == "" then OpHeard(cfg, s0, DoLeave(ref)) else LinesHeard(cfg, Append(s0, ref, chunk), ref)
  }

  lemma RecvIsHeard(cfg: Config, s: ServerState, ref: SessionRef, chunk: string)
    requires Inv(cfg, s) && RecvToken(ref) in s.tokens && ValidOrder(cfg.order)
    ensures RecvHeard(cfg, s, ref, chunk)
  {
    var s0 := Consume(s, RecvToken(ref));
    if IsLive(s0, ref) {
      ConsumeRecv(cfg, s, ref);
      if chunk == "" {
        OpIsHeard(cfg, s0, DoLeave(ref));
      } else {
        OpenIsPrefix(cfg, s0, ref);
        AppendIs(cfg, s0, ref, chunk);
        AppendKeeps(cfg, s0, ref, chunk);
        LinesAreHeard(cfg, Append(s0, ref, chunk), ref);
      }
    }
  }

  /** What follows the lines of a chunk delivers nothing: it closes no session. */
  lemma FinishIsSilent(cfg: Config, s: ServerState, ref: SessionRef)
    requires Core(cfg, s) && IsLive(s, ref)
    ensures FinishRecv(cfg, s, ref).world == s.world && IsLive(FinishRecv(cfg, s, ref), ref)
  {
    if |s.sessions[ref.fd].input| > cfg.maxLine {
      RefusalIsSilent(cfg, s, ref);
    } else {
      NothingToFlush(cfg, s, ref.fd);
    }
  }

  lemma RefusalIsSilent(cfg: Config, s: ServerState, ref: SessionRef)
    requires Core(cfg, s) && IsLive(s, ref)
    ensures var q := QueueResponse(cfg, s, ref, LineTooLong);
            && q.world == s.world && IsLive(q, ref)
            && MaybeCloseAfterFlush(cfg, CloseAfterFlush(q, ref), ref.fd) == CloseAfterFlush(q, ref)
  {
    QueueKeepsCore(cfg, s, ref, LineTooLong);
    QueuedIsInFlight(cfg, s, ref, LineTooLong);
    QueueIsQuiet(cfg, s, ref, LineTooLong);
    var q := QueueResponse(cfg, s, ref, LineTooLong);
    CloseAfterFlushKeepsCore(cfg, q, ref);
    NothingToFlush(cfg, CloseAfterFlush(q, ref), ref.fd);
  }
}

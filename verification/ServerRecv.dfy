/** The receive handler: its loop over the buffered lines is the reference cutting of the stream, and
    whoever reads has exactly one receive in flight. */
module ServerRecv {
  import opened Decimal
  import opened World
  import F = Framing
  import opened Server
  import opened ServerCore
  import opened ServerSteps
  import opened ServerClosing
  import opened ServerLines
  import opened ServerPlaces
  import opened ServerViews

  function QuitLine(): string -> bool {
    line => IsQuit(line)
  }

  function FramerOf(cfg: Config, h: History): F.Framer {
    F.FeedAll(h.chunks, cfg.maxLine, QuitLine())
  }

  ghost predicate FramedSession(cfg: Config, session: Session, h: History) {
    var f := FramerOf(cfg, h);
    session.input == f.input && (session.closeAfterFlush <==> !f.status.Reading?)
  }

  // The lines handled and the bytes buffered are those of the stream received.
  ghost predicate FramingIn(cfg: Config, sessions: Sessions, hist: Histories, busy: set<SessionRef>) {
    && (forall r :: r in hist && r !in busy ==> hist[r].lines == FramerOf(cfg, hist[r]).lines)
    && (forall fd :: fd in sessions && RefOf(sessions[fd]) in hist && RefOf(sessions[fd]) !in busy ==>
          FramedSession(cfg, sessions[fd], hist[RefOf(sessions[fd])]))
  }

  predicate ChunksRight(cfg: Config, h: History) {
    && (forall i :: 0 <= i < |h.chunks| ==> |h.chunks[i]| <= cfg.recvBuffer)
    && (h.chunks != [] ==> F.FeedAll(h.chunks[..|h.chunks| - 1], cfg.maxLine, QuitLine()).status.Reading?)
  }

  // A receive never returns more than the buffer holds, and nothing is received after the reading stopped.
  ghost predicate ChunksIn(cfg: Config, hist: Histories) {
    forall r :: r in hist ==> ChunksRight(cfg, hist[r])
  }

  // Whoever is not closing has exactly one receive in flight, whoever is closing has none.
  ghost predicate ReceivingIn(sessions: Sessions, tokens: multiset<Token>, busy: set<SessionRef>) {
    forall fd :: fd in sessions ==>
      tokens[RecvToken(RefOf(sessions[fd]))] ==
        if sessions[fd].closeAfterFlush || RefOf(sessions[fd]) in busy then 0 else 1
  }

  // What the lines of one connection leave alone.
  ghost predicate Around(s: ServerState, r: ServerState, ref: SessionRef) {
    && r.sessions.Keys == s.sessions.Keys && ref.fd in s.sessions
    && (forall fd :: fd in s.sessions ==> AroundSession(s.sessions[fd], r.sessions[fd], fd == ref.fd))
    && SameOtherTokens(s.tokens, r.tokens)
    && r.openFds == s.openFds && r.nextGeneration == s.nextGeneration
    && r.hist.Keys == s.hist.Keys && ref in s.hist
    && (forall q :: q in s.hist && q != ref ==> QuietHistory(s.hist[q], r.hist[q]))
    && r.hist[ref].chunks == s.hist[ref].chunks && r.hist[ref].ending == s.hist[ref].ending
  }

  predicate AroundSession(a: Session, b: Session, own: bool) {
    && b.fd == a.fd && b.generation == a.generation
    && (!own ==> b.input == a.input && b.closeAfterFlush == a.closeAfterFlush)
  }

  lemma AroundTransitive(a: ServerState, b: ServerState, c: ServerState, ref: SessionRef)
    requires Around(a, b, ref) && Around(b, c, ref)
    ensures Around(a, c, ref)
  {
    forall fd | fd in a.sessions ensures AroundSession(a.sessions[fd], c.sessions[fd], fd == ref.fd) {
      assert AroundSession(a.sessions[fd], b.sessions[fd], fd == ref.fd);
      assert AroundSession(b.sessions[fd], c.sessions[fd], fd == ref.fd);
    }
    forall q | q in a.hist && q != ref ensures QuietHistory(a.hist[q], c.hist[q]) {
      assert QuietHistory(a.hist[q], b.hist[q]) && QuietHistory(b.hist[q], c.hist[q]);
    }
  }

  // ---------- One line ----------

  // The invariant while the lines of one connection are being handled.
  ghost predicate Handling(cfg: Config, s: ServerState, ref: SessionRef) {
    Core(cfg, s) && Places(s) && ViewsIn(s.world, s.hist) && IsLive(s, ref)
  }

  function CutLine(s: ServerState, ref: SessionRef, n: nat): ServerState
    requires IsLive(s, ref) && n < |s.sessions[ref.fd].input|
  {
    var session := s.sessions[ref.fd];
    s.(sessions := s.sessions[ref.fd := session.(input := session.input[n + 1..])])
  }

  lemma CutLineKeepsCore(cfg: Config, s: ServerState, ref: SessionRef, n: nat)
    requires Core(cfg, s) && IsLive(s, ref) && n < |s.sessions[ref.fd].input|
    ensures Core(cfg, CutLine(s, ref, n))
  {
    QuietKeepsCore(cfg, s, CutLine(s, ref, n));
  }

  lemma CutLineAround(cfg: Config, s: ServerState, ref: SessionRef, n: nat)
    requires Core(cfg, s) && IsLive(s, ref) && n < |s.sessions[ref.fd].input|
    ensures Around(s, CutLine(s, ref, n), ref)
  {
    OpenIsPrefix(cfg, s, ref);
    CutAround(s, ref, n);
  }

  lemma CutAround(s: ServerState, ref: SessionRef, n: nat)
    requires IsLive(s, ref) && ref in s.hist && n < |s.sessions[ref.fd].input|
    ensures Around(s, CutLine(s, ref, n), ref)
  {
  }

  lemma CutLineKeeps(cfg: Config, s: ServerState, ref: SessionRef, n: nat)
    requires Handling(cfg, s, ref) && n < |s.sessions[ref.fd].input|
    ensures Handling(cfg, CutLine(s, ref, n), ref) && Around(s, CutLine(s, ref, n), ref)
  {
    CutLineKeepsCore(cfg, s, ref, n);
    CutLineAround(cfg, s, ref, n);
    PlayersLiveTransfer(s.world, s.sessions, CutLine(s, ref, n).sessions);
  }

  lemma HandleLineAround(cfg: Config, s: ServerState, ref: SessionRef, line: string)
    requires Handling(cfg, s, ref) && ValidOrder(cfg.order) && !s.terminated
    ensures var r := HandleLine(cfg, s, ref, line);
            && Handling(cfg, r, ref) && Around(s, r, ref)
            && (r.terminated <==> IsOutOfRange(line))
            && r.sessions[ref.fd].input == s.sessions[ref.fd].input
            && r.sessions[ref.fd].closeAfterFlush == (s.sessions[ref.fd].closeAfterFlush || IsQuit(line))
            && r.hist[ref].lines == s.hist[ref].lines + [line]
  {
    HandleEffect(cfg, s, ref, line);
    HandleLineKeepsPlaces(cfg, s, ref, line);
    HandleLineKeepsViews(cfg, s, ref, line);
    var r := Handle(cfg, s, ref, line);
    NoteKeepsCore(cfg, r, ref, r.hist[ref].(lines := r.hist[ref].lines + [line]));
    NoteLine(s, Handle(cfg, s, ref, line), ref, line, WorldAfter(s.world, cfg.order, LineOp(ref, line)),
             PlacesSaved(s.world, LineOp(ref, line)), SettledByLine(s, ref, line));
  }

  lemma NoteLine(
    s: ServerState, r: ServerState, ref: SessionRef, line: string,
    world: WorldState, places: seq<Place>, settled: bool)
    requires IsLive(s, ref) && Effect(s, r, ref, world, places, settled, IsQuit(line))
    ensures var t := Note(r, ref, r.hist[ref].(lines := r.hist[ref].lines + [line]));
            && IsLive(t, ref) && Around(s, t, ref)
            && t.sessions[ref.fd].input == s.sessions[ref.fd].input
            && t.sessions[ref.fd].closeAfterFlush == (s.sessions[ref.fd].closeAfterFlush || IsQuit(line))
            && t.hist[ref].lines == s.hist[ref].lines + [line]
  {
  }

  lemma NextLineAround(cfg: Config, s: ServerState, ref: SessionRef, n: nat)
    requires Handling(cfg, s, ref) && ValidOrder(cfg.order) && !s.terminated
    requires n < |s.sessions[ref.fd].input| && !s.sessions[ref.fd].closeAfterFlush
    ensures var r := NextLine(cfg, s, ref, n);
            var line := s.sessions[ref.fd].input[..n];
            && Handling(cfg, r, ref) && Around(s, r, ref)
            && (r.terminated <==> IsOutOfRange(line))
            && r.sessions[ref.fd].input == s.sessions[ref.fd].input[n + 1..]
            && r.sessions[ref.fd].closeAfterFlush == IsQuit(line)
            && r.hist[ref].lines == s.hist[ref].lines + [line]
  {
    CutLineKeeps(cfg, s, ref, n);
    var line := s.sessions[ref.fd].input[..n];
    HandleLineAround(cfg, CutLine(s, ref, n), ref, line);
    AroundTransitive(s, CutLine(s, ref, n), NextLine(cfg, s, ref, n), ref);
  }

  // ---------- All buffered lines ----------

  // The loop over a buffer took what the reference takes, unless a line threw.
  ghost predicate Took(
    input: string, before: seq<string>, thrown: bool, lines: seq<string>, rest: string, closing: bool)
  {
    var t := F.TakeLines(input, QuitLine());
    && (!thrown ==> lines == before + t.lines && rest == t.rest && (closing <==> t.quit))
    && (thrown <==> exists line :: line in t.lines && IsOutOfRange(line))
  }

  lemma TookNone(input: string, before: seq<string>)
    requires F.FindNewline(input) == None
    ensures Took(input, before, false, before, input, false)
  {
  }

  lemma TookLast(input: string, n: nat, before: seq<string>, thrown: bool)
    requires F.FindNewline(input) == Some(n)
    requires thrown <==> IsOutOfRange(input[..n])
    requires thrown || IsQuit(input[..n])
    ensures Took(input, before, thrown, before + [input[..n]], input[n + 1..], IsQuit(input[..n]))
  {
    assert input[..n] in F.TakeLines(input, QuitLine()).lines;
  }

  lemma TookOneMore(
    input: string, n: nat, before: seq<string>, thrown: bool, lines: seq<string>, rest: string, closing: bool)
    requires F.FindNewline(input) == Some(n) && !IsQuit(input[..n]) && !IsOutOfRange(input[..n])
    requires Took(input[n + 1..], before + [input[..n]], thrown, lines, rest, closing)
    ensures Took(input, before, thrown, lines, rest, closing)
  {
    var line := input[..n];
    var t1 := F.TakeLines(input[n + 1..], QuitLine());
    assert F.TakeLines(input, QuitLine()) == F.Taken([line] + t1.lines, t1.rest, t1.quit);
    F.Regroup(before, [line], t1.lines);
    assert forall l :: l in [line] + t1.lines <==> l == line || l in t1.lines;
  }

  ghost predicate TookLines(s: ServerState, r: ServerState, ref: SessionRef)
    requires ref.fd in s.sessions && ref.fd in r.sessions && ref in s.hist && ref in r.hist
  {
    Took(s.sessions[ref.fd].input, s.hist[ref].lines,
         r.terminated, r.hist[ref].lines, r.sessions[ref.fd].input, r.sessions[ref.fd].closeAfterFlush)
  }

  /** The loop of the receive handler takes out of the buffer exactly the lines that the reference
      takes, unless a line throws; and it throws only for a line with a coordinate beyond 32 bits. */
  lemma {:induction false} ProcessLinesAround(cfg: Config, s: ServerState, ref: SessionRef)
    requires Handling(cfg, s, ref) && ValidOrder(cfg.order) && !s.terminated && !s.sessions[ref.fd].closeAfterFlush
    ensures var r := ProcessLines(cfg, s, ref);
            && Handling(cfg, r, ref) && Around(s, r, ref)
            && TookLines(s, r, ref)
    decreases |s.sessions[ref.fd].input|
  {
    match F.FindNewline(s.sessions[ref.fd].input)
    case None => NoLineAround(cfg, s, ref);
    case Some(n) =>
      NextLineAround(cfg, s, ref, n);
      var s1 := NextLine(cfg, s, ref, n);
      if s1.terminated || s1.sessions[ref.fd].closeAfterFlush {
        LastLineTook(s, s1, ref, n);
      } else {
        ProcessLinesAround(cfg, s1, ref);
        AroundOneMore(s, s1, ProcessLines(cfg, s1, ref), ref, n);
      }
  }

  // No complete line: nothing is taken.
  lemma NoLineAround(cfg: Config, s: ServerState, ref: SessionRef)
    requires Core(cfg, s) && IsLive(s, ref) && !s.terminated && !s.sessions[ref.fd].closeAfterFlush
    requires F.FindNewline(s.sessions[ref.fd].input) == None
    ensures Around(s, s, ref) && TookLines(s, s, ref)
  {
    OpenIsPrefix(cfg, s, ref);
    TookNone(s.sessions[ref.fd].input, s.hist[ref].lines);
  }

  // The last line the loop takes: it ends the conversation, or throws.
  lemma LastLineTook(s: ServerState, s1: ServerState, ref: SessionRef, n: nat)
    requires Around(s, s1, ref) && F.FindNewline(s.sessions[ref.fd].input) == Some(n)
    requires s1.terminated || s1.sessions[ref.fd].closeAfterFlush
    requires var line := s.sessions[ref.fd].input[..n];
             && (s1.terminated <==> IsOutOfRange(line)) && s1.sessions[ref.fd].closeAfterFlush == IsQuit(line)
             && s1.sessions[ref.fd].input == s.sessions[ref.fd].input[n + 1..]
             && s1.hist[ref].lines == s.hist[ref].lines + [line]
    ensures TookLines(s, s1, ref)
  {
    TookLast(s.sessions[ref.fd].input, n, s.hist[ref].lines, s1.terminated);
  }

  // A line, and then what the loop does from there.
  lemma AroundOneMore(s: ServerState, s1: ServerState, r: ServerState, ref: SessionRef, n: nat)
    requires Around(s, s1, ref) && Around(s1, r, ref) && TookLines(s1, r, ref)
    requires F.FindNewline(s.sessions[ref.fd].input) == Some(n)
    requires var line := s.sessions[ref.fd].input[..n];
             && !IsQuit(line) && !IsOutOfRange(line)
             && s1.sessions[ref.fd].input == s.sessions[ref.fd].input[n + 1..]
             && s1.hist[ref].lines == s.hist[ref].lines + [line]
    ensures Around(s, r, ref) && TookLines(s, r, ref)
  {
    AroundTransitive(s, s1, r, ref);
    TookOneMore(s.sessions[ref.fd].input, n, s.hist[ref].lines, r.terminated, r.hist[ref].lines,
                r.sessions[ref.fd].input, r.sessions[ref.fd].closeAfterFlush);
  }
}

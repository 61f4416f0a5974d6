/** When a step of the server computes a `floor_div` that overflows an `int`: the run theorems compute with
    unbounded integers, so this is where the program can leave them. */
module Overflows {
  import opened Decimal
  import opened Geometry
  import opened World
  import F = Framing
  import opened Server
  import opened ServerCore
  import opened ServerClosing
  import opened ServerLines
  import opened ServerPlaces
  import opened ServerRecv
  import opened ServerInvariant
  import opened ServerHandlers
  import opened System
  import opened Runs
  import opened Storage

  const LOWEST: int := -(INT_MAX - SECTOR_SIZE)

  // ---------- One operation ----------

  // The coordinates that an operation divides by the sector size.
  function Divided(w: WorldState, op: Op): set<int> {
    match op
    case DoEnter(_, _, _, x, y) => {x, y}
    case DoMove(ref, x, y) => if ref in w.players then {x, y} else {}
    case _ => {}
  }

  ghost predicate DivisionOverflows(v: int) {
    exists n :: n in Intermediates(v, SECTOR_SIZE) && !FitsInt(n)
  }

  ghost predicate OpOverflows(w: WorldState, op: Op) {
    exists v :: v in Divided(w, op) && DivisionOverflows(v)
  }

  lemma DivisionOverflowsIff(v: int)
    requires FitsInt(v)
    ensures DivisionOverflows(v) <==> v < LOWEST
  {
    FloorDivOverflow(v, SECTOR_SIZE);
  }

  // Whether a line of a connection that is here, if anywhere, has a coordinate too low.
  predicate IsLow(here: Option<Place>, line: string) {
    match LineOp(NOBODY, line)
    case Some(DoEnter(_, _, _, x, y)) => x < LOWEST || y < LOWEST
    case Some(DoMove(_, x, y)) => here.Some? && (x < LOWEST || y < LOWEST)
    case _ => false
  }

  lemma TwoOverflow(x: int, y: int)
    requires FitsInt(x) && FitsInt(y)
    ensures (exists v :: v in {x, y} && DivisionOverflows(v)) <==> x < LOWEST || y < LOWEST
  {
    DivisionOverflowsIff(x);
    DivisionOverflowsIff(y);
    assert x in {x, y} && y in {x, y};
  }

  ghost predicate LineOverflows(w: WorldState, ref: SessionRef, line: string) {
    var op := LineOp(ref, line);
    op.Some? && OpOverflows(w, op.value)
  }

  lemma LineOverflowsIff(w: WorldState, ref: SessionRef, line: string)
    ensures LineOverflows(w, ref, line) <==> IsLow(PlaceIn(w, ref), line)
  {
    LineOpFor(ref, line);
    OpFits(line);
    match LineOp(NOBODY, line)
    case Some(DoEnter(_, _, _, x, y)) => TwoOverflow(x, y);
    case Some(DoMove(_, x, y)) => TwoOverflow(x, y);
    case _ =>
  }

  // ---------- A chunk ----------

  // Whether some line that the receive loop handles overflows, in the state it is handled in.
  ghost predicate LinesOverflow(cfg: Config, s: ServerState, ref: SessionRef)
    requires SessionMatches(s, ref)
    decreases |s.sessions[ref.fd].input|
  {
    match F.FindNewline(s.sessions[ref.fd].input)
    case None => false
    case Some(n) =>
      NextLineShortens(cfg, s, ref, n);
      var s1 := NextLine(cfg, s, ref, n);
      || LineOverflows(s.world, ref, s.sessions[ref.fd].input[..n])
      || (!s1.terminated && !s1.sessions[ref.fd].closeAfterFlush && LinesOverflow(cfg, s1, ref))
  }

  // Whether one of some lines is too low where those before it have left the connection; the server is
  // gone after a line beyond 32 bits.
  predicate SomeLow(before: seq<string>, lines: seq<string>)
    decreases |lines|
  {
    && lines != []
    && (IsLow(Whereabouts(before), lines[0]) ||
        (!IsOutOfRange(lines[0]) && SomeLow(before + [lines[0]], lines[1..])))
  }

  lemma SomeLowOf(before: seq<string>, line: string, lines: seq<string>)
    ensures SomeLow(before, [line]) <==> IsLow(Whereabouts(before), line)
    ensures SomeLow(before, [line] + lines) <==>
              IsLow(Whereabouts(before), line) || (!IsOutOfRange(line) && SomeLow(before + [line], lines))
  {
    assert ([line] + lines)[1..] == lines;
  }

  lemma StandsByItsLines(cfg: Config, s: ServerState, ref: SessionRef)
    requires Handling(cfg, s, ref)
    ensures ref in s.hist && PlaceIn(s.world, ref) == Whereabouts(s.hist[ref].lines)
  {
    OpenIsPrefix(cfg, s, ref);
    assert StandsRight(s.world, s.hist[ref], ref);
  }

  lemma {:induction false} LinesOverflowIff(cfg: Config, s: ServerState, ref: SessionRef)
    requires Handling(cfg, s, ref) && ValidOrder(cfg.order) && !s.terminated && !s.sessions[ref.fd].closeAfterFlush
    ensures ref in s.hist
    ensures LinesOverflow(cfg, s, ref) <==>
            SomeLow(s.hist[ref].lines, F.TakeLines(s.sessions[ref.fd].input, QuitLine()).lines)
    decreases |s.sessions[ref.fd].input|
  {
    StandsByItsLines(cfg, s, ref);
    var input := s.sessions[ref.fd].input;
    match F.FindNewline(input)
    case None =>
    case Some(n) =>
      var s1 := NextLine(cfg, s, ref, n);
      NextLineAround(cfg, s, ref, n);
      LineOverflowsIff(s.world, ref, input[..n]);
      if !s1.terminated && !s1.sessions[ref.fd].closeAfterFlush {
        LinesOverflowIff(cfg, s1, ref);
      }
      TakesLow(s.hist[ref].lines, input, n);
  }

  // Low lines in a buffer: its first line, or those after it.
  lemma TakesLow(before: seq<string>, input: string, n: nat)
    requires F.FindNewline(input) == Some(n)
    ensures var line := input[..n];
            SomeLow(before, F.TakeLines(input, QuitLine()).lines) <==>
            || IsLow(Whereabouts(before), line)
            || (!IsOutOfRange(line) && !IsQuit(line) &&
                SomeLow(before + [line], F.TakeLines(input[n + 1..], QuitLine()).lines))
  {
    SomeLowOf(before, input[..n], F.TakeLines(input[n + 1..], QuitLine()).lines);
  }

  // ---------- A step ----------

  // Only a chunk brings coordinates; a departure divides nothing.
  ghost predicate StepOverflows(cfg: Config, s: SystemState, step: SystemStep) {
    match step
    case Receive(ref, chunk) =>
      var s0 := Consume(s.server, RecvToken(ref));
      IsLive(s0, ref) && chunk != "" && LinesOverflow(cfg, Append(s0, ref, chunk), ref)
    case _ => false
  }

  /** A step computes a `floor_div` that overflows exactly when a received chunk completes an ENTER, or a
      MOVE of a connection that then is in the world, not after a QUIT or a line beyond 32 bits, with a
      coordinate below `-(INT_MAX - S)` for the sector size `S`. */
  lemma OverflowsIff(cfg: Config, s: SystemState, step: SystemStep)
    requires Running(cfg, s) && Enabled(cfg, s, step)
    ensures StepOverflows(cfg, s, step) <==>
            && step.Receive? && step.chunk != "" && step.ref in s.server.hist
            && SomeLow(s.server.hist[step.ref].lines, NewLines(s, step.ref, step.chunk))
  {
    if step.Receive? && step.chunk != "" && IsLive(s.server, step.ref) {
      RunningInv(cfg, s);
      ChunkOverflowsIff(cfg, s.server, step.ref, step.chunk);
    }
  }

  lemma ChunkOverflowsIff(cfg: Config, s: ServerState, ref: SessionRef, chunk: string)
    requires Inv(cfg, s) && RecvToken(ref) in s.tokens && IsLive(s, ref) && ValidOrder(cfg.order)
    ensures ref in s.hist
    ensures LinesOverflow(cfg, Append(Consume(s, RecvToken(ref)), ref, chunk), ref) <==>
            SomeLow(s.hist[ref].lines, F.TakeLines(s.sessions[ref.fd].input + chunk, QuitLine()).lines)
  {
    var s0 := Consume(s, RecvToken(ref));
    ConsumeRecv(cfg, s, ref);
    OpenIsPrefix(cfg, s0, ref);
    AppendIs(cfg, s0, ref, chunk);
    AppendKeeps(cfg, s0, ref, chunk);
    LinesOverflowIff(cfg, Append(s0, ref, chunk), ref);
  }
}

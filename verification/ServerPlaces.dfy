/** Sessions and the world agree: who is in the world is a live session, stands where its own lines
    put it, has had exactly the positions saved that its lines call for, and has been told what it
    needs to see the players around it. */
module ServerPlaces {
  import opened Decimal
  import opened Geometry
  import W = World
  import opened World
  import Views
  import opened Protocol
  import opened Server
  import opened ServerCore
  import opened ServerClosing
  import opened ServerLines

  // ---------- A connection's journey, read off its lines ----------

  const NOBODY := SessionRef(-1, 0)

  // Where a connection is after one more line; the first argument is where it was.
  function PlaceAfter(p: Option<Place>, line: string): Option<Place> {
    match LineOp(NOBODY, line)
    case Some(DoEnter(_, account, character, x, y)) => Some(Place(account, character, x, y))
    case Some(DoMove(_, x, y)) => if p.Some? then Some(p.value.(x := x, y := y)) else None
    case Some(DoLeave(_)) => None
    case _ => p
  }

  // The places saved because of one more line: the one entered, or the one left.
  function SavesAfter(p: Option<Place>, line: string): seq<Place> {
    match LineOp(NOBODY, line)
    case Some(DoEnter(_, account, character, x, y)) => [Place(account, character, x, y)]
    case Some(DoLeave(_)) => if p.Some? then [p.value] else []
    case _ => []
  }

  function Whereabouts(lines: seq<string>): Option<Place> {
    if lines == [] then None else PlaceAfter(Whereabouts(lines[..|lines| - 1]), lines[|lines| - 1])
  }

  function SavedPlaces(lines: seq<string>): seq<Place> {
    if lines == [] then []
    else
      var most := lines[..|lines| - 1];
      SavedPlaces(most) + SavesAfter(Whereabouts(most), lines[|lines| - 1])
  }

  /** All position saves of a connection: those of its lines and, once it ended, that of the place it
      was at, if it was anywhere. */
  function ExpectedSaves(lines: seq<string>, ended: bool): seq<Place> {
    var p := Whereabouts(lines);
    SavedPlaces(lines) + if ended && p.Some? then [p.value] else []
  }

  // The place that the last ENTER named.
  function LastEntered(lines: seq<string>): Option<Place> {
    if lines == [] then None
    else
      var last := EntersAt(lines[|lines| - 1]);
      if last.Some? then last else LastEntered(lines[..|lines| - 1])
  }

  // While a connection is anywhere, the place last saved is the one its last ENTER named.
  lemma {:induction false} LastSavedIsLastEntered(lines: seq<string>)
    requires Whereabouts(lines).Some?
    ensures LastEntered(lines).Some? && SavedPlaces(lines) != []
    ensures SavedPlaces(lines)[|SavedPlaces(lines)| - 1] == LastEntered(lines).value
    ensures LastEntered(lines).value.account == Whereabouts(lines).value.account
    ensures LastEntered(lines).value.character == Whereabouts(lines).value.character
  {
    var most, line := lines[..|lines| - 1], lines[|lines| - 1];
    assert SavedPlaces(lines) == SavedPlaces(most) + SavesAfter(Whereabouts(most), line);
    if EntersAt(line).Some? {
      assert SavesAfter(Whereabouts(most), line) == [EntersAt(line).value];
    } else {
      SaysLittle(Whereabouts(most), line);
      LastSavedIsLastEntered(most);
      NothingAdded(SavedPlaces(most));
    }
  }

  lemma NothingAdded<T>(a: seq<T>)
    ensures a + [] == a
  {
  }

  // The place that a line enters, if it is an ENTER.
  function EntersAt(line: string): Option<Place> {
    match LineOp(NOBODY, line)
    case Some(DoEnter(_, account, character, x, y)) => Some(Place(account, character, x, y))
    case _ => None
  }

  // A line other than an ENTER that leaves a connection somewhere saves nothing.
  lemma SaysLittle(p: Option<Place>, line: string)
    requires EntersAt(line).None? && PlaceAfter(p, line).Some?
    ensures SavesAfter(p, line) == [] && p.Some?
    ensures PlaceAfter(p, line).value.account == p.value.account
    ensures PlaceAfter(p, line).value.character == p.value.character
  {
  }

  /** Entering again saves the new place only: the place replaced is the one last saved iff the player
      stands where its last ENTER put it. */
  lemma EnteringAgainSavesOldPlaceIff(lines: seq<string>, line: string)
    requires Whereabouts(lines).Some? && EntersAt(line).Some?
    ensures var here, saved := Whereabouts(lines).value, SavedPlaces(lines);
            && LastEntered(lines).Some? && saved != []
            && SavedPlaces(lines + [line]) == saved + [Whereabouts(lines + [line]).value]
            && (saved[|saved| - 1] == here <==>
                  here.x == LastEntered(lines).value.x && here.y == LastEntered(lines).value.y)
  {
    WhereaboutsAppend(lines, line);
    LastSavedIsLastEntered(lines);
  }

  // Whether a connection's moves since its last ENTER all stayed in the sector it entered.
  predicate Steady(lines: seq<string>) {
    lines != [] &&
    var most := lines[..|lines| - 1];
    match LineOp(NOBODY, lines[|lines| - 1])
    case Some(DoEnter(_, _, _, _, _)) => true
    case Some(DoMove(_, x, y)) => Steady(most) && StaysInSector(Whereabouts(most), x, y)
    case Some(DoLeave(_)) => false
    case _ => Steady(most)
  }

  predicate StaysInSector(p: Option<Place>, x: int, y: int) {
    p.Some? ==> SectorFor(SECTOR_SIZE, p.value.x, p.value.y) == SectorFor(SECTOR_SIZE, x, y)
  }

  lemma SteadyAppend(lines: seq<string>, line: string)
    ensures Steady(lines + [line]) <==>
            match LineOp(NOBODY, line)
            case Some(DoEnter(_, _, _, _, _)) => true
            case Some(DoMove(_, x, y)) => Steady(lines) && StaysInSector(Whereabouts(lines), x, y)
            case Some(DoLeave(_)) => false
            case _ => Steady(lines)
  {
    assert (lines + [line])[..|lines|] == lines;
  }

  lemma WhereaboutsAppend(lines: seq<string>, line: string)
    ensures Whereabouts(lines + [line]) == PlaceAfter(Whereabouts(lines), line)
    ensures SavedPlaces(lines + [line]) == SavedPlaces(lines) + SavesAfter(Whereabouts(lines), line)
  {
    assert (lines + [line])[..|lines|] == lines;
  }

  lemma LineOpFor(ref: SessionRef, line: string)
    ensures match LineOp(NOBODY, line)
            case None => LineOp(ref, line) == None
            case Some(DoEnter(_, account, character, x, y)) =>
              LineOp(ref, line) == Some(DoEnter(ref, account, character, x, y)) && account != ""
            case Some(DoMove(_, x, y)) => LineOp(ref, line) == Some(DoMove(ref, x, y))
            case Some(DoAttack(_, skill, target)) => LineOp(ref, line) == Some(DoAttack(ref, skill, target))
            case Some(DoLeave(_)) => LineOp(ref, line) == Some(DoLeave(ref))
  {
    match Parse(line)
    case Error(_) =>
    case Ok(r) =>
      ParseAccepts(line, r);
      CoordinatesOf(r);
  }

  // ---------- Places in the world ----------

  function PlaceIn(w: WorldState, ref: SessionRef): Option<Place> {
    if ref !in w.players then None
    else
      var p := w.players[ref];
      Some(Place(p.account, p.character, p.x, p.y))
  }

  lemma PlacesAfterOp(w: WorldState, order: Order, op: Op, q: SessionRef)
    ensures var w1 := W.Apply(w, order, op).world;
            if q != op.ref then PlaceIn(w1, q) == PlaceIn(w, q)
            else match op
              case DoEnter(_, account, character, x, y) => PlaceIn(w1, q) == Some(Place(account, character, x, y))
              case DoMove(_, x, y) =>
                PlaceIn(w1, q) == (if q in w.players then Some(PlaceIn(w, q).value.(x := x, y := y)) else None)
              case DoAttack(_, _, _) => PlaceIn(w1, q) == PlaceIn(w, q)
              case DoLeave(_) => PlaceIn(w1, q) == None
    ensures q in W.Apply(w, order, op).world.players <==>
            if q != op.ref || op.DoMove? || op.DoAttack? then q in w.players else op.DoEnter?
  {
  }

  // Where a line leaves its own connection and everybody else.
  lemma PlacesAfterLine(w: WorldState, order: Order, ref: SessionRef, line: string, q: SessionRef)
    ensures PlaceIn(WorldAfter(w, order, LineOp(ref, line)), q) ==
            if q == ref then PlaceAfter(PlaceIn(w, ref), line) else PlaceIn(w, q)
  {
    LineOpFor(ref, line);
    var op := LineOp(ref, line);
    if op.Some? {
      PlacesAfterOp(w, order, op.value, q);
    }
  }

  lemma SavesOfLine(w: WorldState, ref: SessionRef, line: string)
    requires ref in w.players ==> w.players[ref].account != ""
    ensures PlacesSaved(w, LineOp(ref, line)) == SavesAfter(PlaceIn(w, ref), line)
  {
    LineOpFor(ref, line);
  }

  // ---------- The agreement ----------

  ghost predicate AccountsNamed(w: WorldState) {
    forall r :: r in w.players ==> w.players[r].account != ""
  }

  ghost predicate WorldValid(w: WorldState) {
    IndexValid(w) && w.size == SECTOR_SIZE && w.radius == VIEW_RADIUS && AccountsNamed(w)
  }

  // Players are live sessions.
  ghost predicate PlayersLive(w: WorldState, sessions: Sessions) {
    forall r :: r in w.players ==> LiveIn(sessions, r)
  }

  // It stands where its lines put it, and is settled if they kept it in its sector.
  ghost predicate StandsRight(w: WorldState, h: History, r: SessionRef) {
    && PlaceIn(w, r) == (if h.ending == Open then Whereabouts(h.lines) else None)
    && (r in w.players && Steady(h.lines) ==> h.settled)
  }

  ghost predicate SavedRight(h: History, r: SessionRef) {
    AreSavesOf(h.saves, r, ExpectedSaves(h.lines, h.ending != Open))
  }

  ghost predicate JourneysIn(w: WorldState, hist: Histories) {
    forall r :: r in hist ==> StandsRight(w, hist[r], r) && SavedRight(hist[r], r)
  }

  ghost predicate Places(s: ServerState) {
    WorldValid(s.world) && PlayersLive(s.world, s.sessions) && JourneysIn(s.world, s.hist)
  }

  lemma AreSavesConcat(a: seq<DbJob>, b: seq<DbJob>, ref: SessionRef, x: seq<Place>, y: seq<Place>)
    requires AreSavesOf(a, ref, x) && AreSavesOf(b, ref, y)
    ensures AreSavesOf(a + b, ref, x + y)
  {
  }

  lemma WorldValidAfter(w: WorldState, order: Order, ref: SessionRef, line: string)
    requires WorldValid(w)
    ensures WorldValid(WorldAfter(w, order, LineOp(ref, line)))
  {
    LineOpFor(ref, line);
    var op := LineOp(ref, line);
    if op.Some? {
      ApplyKeepsIndex(w, order, op.value);
      AccountsAfterOp(w, order, op.value);
    }
  }

  lemma AccountsAfterOp(w: WorldState, order: Order, op: Op)
    requires AccountsNamed(w) && (op.DoEnter? ==> op.account != "")
    ensures AccountsNamed(W.Apply(w, order, op).world)
  {
    var w1 := W.Apply(w, order, op).world;
    forall r | r in w1.players ensures w1.players[r].account != "" {
      PlacesAfterOp(w, order, op, r);
      assert PlaceIn(w1, r).value.account == w1.players[r].account;
      if r in w.players { assert PlaceIn(w, r).value.account == w.players[r].account; }
    }
  }

  lemma PlayersStayLive(w: WorldState, order: Order, ref: SessionRef, line: string, sessions: Sessions)
    requires PlayersLive(w, sessions) && LiveIn(sessions, ref)
    ensures PlayersLive(WorldAfter(w, order, LineOp(ref, line)), sessions)
  {
    LineOpFor(ref, line);
    var op := LineOp(ref, line);
    if op.Some? {
      var w1 := W.Apply(w, order, op.value).world;
      forall r | r in w1.players ensures LiveIn(sessions, r) {
        PlacesAfterOp(w, order, op.value, r);
      }
    }
  }

  // The journey of the connection whose line was handled, and of the others.
  lemma JourneyAfterLine(
    w: WorldState, order: Order, ref: SessionRef, line: string, a: Histories, b: Histories, settled: bool)
    requires JourneysIn(w, a) && WorldValid(w) && ref in a && a[ref].ending == Open
    requires SavedFor(a, b, ref, PlacesSaved(w, LineOp(ref, line)), settled)
    requires settled == LineSettles(w, a[ref].settled, ref, line)
    ensures JourneysIn(WorldAfter(w, order, LineOp(ref, line)), b[ref := b[ref].(lines := b[ref].lines + [line])])
  {
    var w1 := WorldAfter(w, order, LineOp(ref, line));
    var c := b[ref := b[ref].(lines := b[ref].lines + [line])];
    forall q | q in c ensures StandsRight(w1, c[q], q) && SavedRight(c[q], q) {
      assert StandsRight(w, a[q], q) && SavedRight(a[q], q);
      PlacesAfterLine(w, order, ref, line, q);
      if q == ref {
        WhereaboutsAppend(a[ref].lines, line);
        SavesOfLine(w, ref, line);
        OwnSteadiness(w, order, ref, line, a[ref]);
        OwnSaves(w, ref, line, a[ref], b[ref], settled);
      } else {
        assert QuietHistory(a[q], b[q]);
      }
    }
  }

  // A line that keeps its connection in its sector keeps it settled.
  lemma OwnSteadiness(w: WorldState, order: Order, ref: SessionRef, line: string, a: History)
    requires WorldValid(w) && StandsRight(w, a, ref) && a.ending == Open
    ensures ref in WorldAfter(w, order, LineOp(ref, line)).players && Steady(a.lines + [line]) ==>
              LineSettles(w, a.settled, ref, line)
  {
    SteadyAppend(a.lines, line);
    LineOpFor(ref, line);
    var op := LineOp(ref, line);
    if op.Some? {
      PlacesAfterOp(w, order, op.value, ref);
      if op.value.DoMove? && ref in w.players {
        assert PlaceIn(w, ref) == Whereabouts(a.lines);
        assert StaysInSector(Whereabouts(a.lines), op.value.x, op.value.y) ==>
                 Views.SameCompany(w, ref, op.value.x, op.value.y);
      }
    }
  }

  lemma OwnSaves(w: WorldState, ref: SessionRef, line: string, a: History, b: History, settled: bool)
    requires StandsRight(w, a, ref) && SavedRight(a, ref) && a.ending == Open
    requires ref in w.players ==> w.players[ref].account != ""
    requires b.lines == a.lines && b.ending == a.ending
    requires |b.saves| == |a.saves| + |PlacesSaved(w, LineOp(ref, line))| && b.saves[..|a.saves|] == a.saves
    requires AreSavesOf(b.saves[|a.saves|..], ref, PlacesSaved(w, LineOp(ref, line)))
    ensures SavedRight(b.(lines := b.lines + [line]), ref)
  {
    WhereaboutsAppend(a.lines, line);
    SavesOfLine(w, ref, line);
    StillExpected(a.lines);
    StillExpected(a.lines + [line]);
    MoreSaved(a.saves, b.saves, ref, SavedPlaces(a.lines), PlacesSaved(w, LineOp(ref, line)));
  }

  lemma StillExpected(lines: seq<string>)
    ensures ExpectedSaves(lines, false) == SavedPlaces(lines)
  {
  }

  lemma MoreSaved(a: seq<DbJob>, b: seq<DbJob>, ref: SessionRef, x: seq<Place>, y: seq<Place>)
    requires |a| <= |b| && b[..|a|] == a && AreSavesOf(a, ref, x) && AreSavesOf(b[|a|..], ref, y)
    ensures AreSavesOf(b, ref, x + y)
  {
    AreSavesConcat(a, b[|a|..], ref, x, y);
    assert b == a + b[|a|..];
  }

  /** Handling a line keeps sessions and world in agreement. */
  lemma HandleLineKeepsPlaces(cfg: Config, s: ServerState, ref: SessionRef, line: string)
    requires Core(cfg, s) && Places(s) && IsLive(s, ref) && !s.terminated
    ensures Places(HandleLine(cfg, s, ref, line))
  {
    HandleEffect(cfg, s, ref, line);
    OpenIsPrefix(cfg, s, ref);
    var r := Handle(cfg, s, ref, line);
    WorldValidAfter(s.world, cfg.order, ref, line);
    PlayersStayLive(s.world, cfg.order, ref, line, s.sessions);
    PlayersLiveTransfer(r.world, s.sessions, r.sessions);
    JourneyAfterLine(s.world, cfg.order, ref, line, s.hist, r.hist, SettledByLine(s, ref, line));
  }

  lemma PlayersLiveTransfer(w: WorldState, a: Sessions, b: Sessions)
    requires PlayersLive(w, a) && a.Keys == b.Keys
    requires forall fd :: fd in a ==> b[fd].generation == a[fd].generation
    ensures PlayersLive(w, b)
  {
  }

  // ---------- Closing ----------

  /** A connection that ends leaves the world, and its last place is saved exactly once. */
  lemma CloseKeepsPlaces(cfg: Config, s: ServerState, ref: SessionRef, ending: Ending)
    requires Core(cfg, Erased(s, ref, ending)) && IsLive(s, ref) && s.sessions[ref.fd].fd == ref.fd
    requires Places(s) && ValidOrder(cfg.order) && ending != Open
    requires ref in s.hist && s.hist[ref].ending == Open
    ensures Places(CloseSession(cfg, s, ref.fd, ending))
  {
    CloseIsErase(cfg, s, ref, ending);
    var e := Erased(s, ref, ending);
    DepartEffect(cfg, e, ref);
    var r := Depart(cfg, e, ref);
    assert r.world == W.Apply(s.world, cfg.order, DoLeave(ref)).world;
    ApplyKeepsIndex(s.world, cfg.order, DoLeave(ref));
    AccountsAfterOp(s.world, cfg.order, DoLeave(ref));
    assert PlayersLive(r.world, r.sessions) by {
      LeaversGone(s, e, r, cfg.order, ref);
    }
    LastSave(s.world, cfg.order, ref, s.hist, e.hist, r.hist, ending);
  }

  lemma LeaversGone(s: ServerState, e: ServerState, r: ServerState, order: Order, ref: SessionRef)
    requires PlayersLive(s.world, s.sessions) && LiveIn(s.sessions, ref)
    requires e.sessions == s.sessions - {ref.fd} && SameSessions(e, r)
    requires r.world == W.Apply(s.world, order, DoLeave(ref)).world
    ensures PlayersLive(r.world, r.sessions)
  {
    forall q | q in r.world.players ensures LiveIn(r.sessions, q) {
      PlacesAfterOp(s.world, order, DoLeave(ref), q);
      assert LiveIn(s.sessions, q) && q != ref;
      assert SameButSending(e.sessions[q.fd], r.sessions[q.fd]);
    }
  }

  lemma LastSave(
    w: WorldState, order: Order, ref: SessionRef, a: Histories, e: Histories, b: Histories, ending: Ending)
    requires JourneysIn(w, a) && AccountsNamed(w) && ref in a && a[ref].ending == Open && ending != Open
    requires e == a[ref := a[ref].(ending := ending)]
    requires SavedFor(e, b, ref, PlacesSaved(w, Some(DoLeave(ref))), e[ref].settled)
    ensures JourneysIn(W.Apply(w, order, DoLeave(ref)).world, b)
  {
    var w1 := W.Apply(w, order, DoLeave(ref)).world;
    forall q | q in b ensures StandsRight(w1, b[q], q) && SavedRight(b[q], q) {
      assert StandsRight(w, a[q], q) && SavedRight(a[q], q);
      PlacesAfterOp(w, order, DoLeave(ref), q);
      if q == ref {
        OwnLastSave(w, ref, a[ref], b[ref]);
      } else {
        assert QuietHistory(e[q], b[q]);
      }
    }
  }

  // The connection that ends has its last place saved, if it was anywhere.
  lemma OwnLastSave(w: WorldState, ref: SessionRef, a: History, b: History)
    requires StandsRight(w, a, ref) && SavedRight(a, ref) && AccountsNamed(w) && a.ending == Open
    requires b.lines == a.lines && b.ending != Open
    requires |a.saves| <= |b.saves| && b.saves[..|a.saves|] == a.saves
    requires AreSavesOf(b.saves[|a.saves|..], ref, PlacesSaved(w, Some(DoLeave(ref))))
    ensures SavedRight(b, ref)
  {
    StillExpected(a.lines);
    var last := PlacesSaved(w, Some(DoLeave(ref)));
    assert last == if Whereabouts(a.lines).Some? then [Whereabouts(a.lines).value] else [];
    MoreSaved(a.saves, b.saves, ref, SavedPlaces(a.lines), last);
  }
}

/** The sector world as values: who is where, the sector index, and the events that each
    operation emits.  The index is queried, never the list of players; `IndexValid` is what
    makes the two agree. */
module World {
  import opened Geometry

  datatype SessionRef = SessionRef(fd: int, generation: nat)

  datatype PlayerState = PlayerState(
    ref: SessionRef, account: string, character: string, x: int, y: int, sector: SectorCoord)

  // What a caller of `leave` learns about the player that left; all empty if there was none.
  datatype PlayerSnapshot = PlayerSnapshot(account: string, character: string, x: int, y: int)

  datatype DespawnReason = SectorOut | Gone

  // The lines sent to clients.  A line names its subject by the player's state; the text
  // carries the character name and the coordinates of that state.
  datatype WorldLine =
    | NotInWorld
    | Entered(player: PlayerState)
    | EnterSeen(player: PlayerState)
    | Snapshot(player: PlayerState)
    | Moved(player: PlayerState)
    | MoveSeen(player: PlayerState)
    | Despawned(player: PlayerState, reason: DespawnReason)
    | Attacked(skill: string, target: string)
    | AttackSeen(player: PlayerState, skill: string, target: string)

  datatype WorldEvent = WorldEvent(receiver: SessionRef, line: WorldLine)

  datatype WorldState = WorldState(
    size: pos,
    radius: nat,
    players: map<SessionRef, PlayerState>,
    sectors: map<SectorCoord, set<SessionRef>>,
    ticks: nat)  // how many times a hash set was iterated so far

  datatype Outcome = Outcome(world: WorldState, events: seq<WorldEvent>)

  // The iteration order of a hash set is the environment's choice, made anew each time a
  // set is iterated: `order(t, s)` is the order of the t-th iteration, if it is over `s`.
  type Order = (nat, set<SessionRef>) -> seq<SessionRef>

  ghost predicate Enumerates(refs: seq<SessionRef>, s: set<SessionRef>) {
    && (forall r :: r in refs <==> r in s)
    && (forall i, j :: 0 <= i < j < |refs| ==> refs[i] != refs[j])
  }

  ghost predicate ValidOrder(order: Order) {
    forall t, s :: Enumerates(order(t, s), s)
  }

  ghost function Listed(s: set<SessionRef>): (refs: seq<SessionRef>)
    ensures Enumerates(refs, s)
  {
    if s == {} then []
    else
      var r :| r in s;
      [r] + Listed(s - {r})
  }

  // There are such orders.
  lemma OrdersExist()
    ensures exists order: Order :: ValidOrder(order)
  {
    var order: Order := (_, s) => Listed(s);
    assert ValidOrder(order);
  }

  // ---------- The index ----------

  ghost predicate PlayersValid(w: WorldState) {
    forall r :: r in w.players ==>
      && w.players[r].ref == r
      && w.players[r].sector == SectorFor(w.size, w.players[r].x, w.players[r].y)
  }

  ghost predicate BucketsValid(w: WorldState) {
    && (forall c :: c in w.sectors ==> w.sectors[c] != {})
    && (forall c, r :: c in w.sectors && r in w.sectors[c] ==> r in w.players && w.players[r].sector == c)
    && (forall r :: r in w.players ==>
          w.players[r].sector in w.sectors && r in w.sectors[w.players[r].sector])
  }

  /** Every player is in exactly the bucket of the sector of its own coordinates, and no bucket is empty. */
  ghost predicate IndexValid(w: WorldState) {
    PlayersValid(w) && BucketsValid(w)
  }

  // What the index answers.
  function WatchersAround(w: WorldState, c: SectorCoord): set<SessionRef> {
    set s, r | s in w.sectors && Near(w.radius, c, s) && r in w.sectors[s] :: r
  }

  // What a scan of all players answers.
  function PlayersAround(w: WorldState, c: SectorCoord): set<SessionRef> {
    set r | r in w.players && Near(w.radius, c, w.players[r].sector)
  }

  lemma IndexAnswersTheScan(w: WorldState, c: SectorCoord)
    requires IndexValid(w)
    ensures WatchersAround(w, c) == PlayersAround(w, c)
  {
    forall r | r in PlayersAround(w, c) ensures r in WatchersAround(w, c) {
      assert w.players[r].sector in w.sectors;
    }
  }

  function InsertIntoSector(sectors: map<SectorCoord, set<SessionRef>>, c: SectorCoord, ref: SessionRef)
    : map<SectorCoord, set<SessionRef>>
  {
    sectors[c := (if c in sectors then sectors[c] else {}) + {ref}]
  }

  function EraseFromSector(sectors: map<SectorCoord, set<SessionRef>>, c: SectorCoord, ref: SessionRef)
    : map<SectorCoord, set<SessionRef>>
  {
    if c !in sectors then sectors
    else if sectors[c] - {ref} == {} then sectors - {c}
    else sectors[c := sectors[c] - {ref}]
  }

  // ---------- Events ----------

  // The events of a loop over `refs` whose body emits `notice(r)` for each `r`.
  function Emit(refs: seq<SessionRef>, notice: SessionRef -> seq<WorldEvent>): seq<WorldEvent> {
    if refs == [] then []
    else Emit(refs[..|refs| - 1], notice) + notice(refs[|refs| - 1])
  }

  function EnterNotice(p: PlayerState): SessionRef -> seq<WorldEvent> {
    r => [WorldEvent(r, if r == p.ref then Entered(p) else EnterSeen(p))]
  }

  function SnapshotNotice(players: map<SessionRef, PlayerState>, ref: SessionRef): SessionRef -> seq<WorldEvent> {
    r => if r == ref || r !in players then [] else [WorldEvent(ref, Snapshot(players[r]))]
  }

  function MoveNotice(p: PlayerState, before: set<SessionRef>, after: set<SessionRef>): SessionRef -> seq<WorldEvent> {
    r =>
      if r == p.ref then [WorldEvent(r, Moved(p))]
      else if r in before && r in after then [WorldEvent(r, MoveSeen(p))]
      else if r !in before && r in after then [WorldEvent(r, EnterSeen(p))]
      else if r in before && r !in after then [WorldEvent(r, Despawned(p, SectorOut))]
      else []
  }

  function AttackNotice(p: PlayerState, skill: string, target: string): SessionRef -> seq<WorldEvent> {
    r => [WorldEvent(r, if r == p.ref then Attacked(skill, target) else AttackSeen(p, skill, target))]
  }

  function LeaveNotice(p: PlayerState): SessionRef -> seq<WorldEvent> {
    r => if r == p.ref then [] else [WorldEvent(r, Despawned(p, Gone))]
  }

  // ---------- Operations ----------

  function Leave(w: WorldState, order: Order, ref: SessionRef): Outcome {
    if ref !in w.players then Outcome(w, [])
    else
      var p := w.players[ref];
      var watchers := WatchersAround(w, p.sector);
      Outcome(
        w.(sectors := EraseFromSector(w.sectors, p.sector, ref), players := w.players - {ref}, ticks := w.ticks + 1),
        Emit(order(w.ticks, watchers), LeaveNotice(p)))
  }

  function SnapshotOf(w: WorldState, ref: SessionRef): PlayerSnapshot {
    if ref !in w.players then PlayerSnapshot("", "", 0, 0)
    else
      var p := w.players[ref];
      PlayerSnapshot(p.account, p.character, p.x, p.y)
  }

  // The part of `enter` after the player's previous incarnation has left.
  function Arrive(w: WorldState, order: Order, p: PlayerState): Outcome {
    var w1 := w.(players := w.players[p.ref := p], sectors := InsertIntoSector(w.sectors, p.sector, p.ref));
    var refs := order(w.ticks, WatchersAround(w1, p.sector));
    Outcome(w1.(ticks := w.ticks + 1), Emit(refs, EnterNotice(p)) + Emit(refs, SnapshotNotice(w1.players, p.ref)))
  }

  function Enter(
    w: WorldState, order: Order, ref: SessionRef, account: string, character: string, x: int, y: int): Outcome
  {
    var left := Leave(w, order, ref);
    var arrived := Arrive(left.world, order, PlayerState(ref, account, character, x, y, SectorFor(w.size, x, y)));
    Outcome(arrived.world, left.events + arrived.events)
  }

  // The player map and the index after a move.
  function Relocated(w: WorldState, ref: SessionRef, x: int, y: int): WorldState
    requires ref in w.players
  {
    var p := w.players[ref];
    var sector := SectorFor(w.size, x, y);
    w.(players := w.players[ref := p.(x := x, y := y, sector := sector)],
       sectors := if p.sector == sector then w.sectors
                  else InsertIntoSector(EraseFromSector(w.sectors, p.sector, ref), sector, ref))
  }

  function Move(w: WorldState, order: Order, ref: SessionRef, x: int, y: int): Outcome {
    if ref !in w.players then Outcome(w, [WorldEvent(ref, NotInWorld)])
    else
      var before := WatchersAround(w, w.players[ref].sector);
      var w1 := Relocated(w, ref, x, y);
      var after := WatchersAround(w1, w1.players[ref].sector);
      Outcome(w1.(ticks := w.ticks + 1),
              Emit(order(w.ticks, before + after), MoveNotice(w1.players[ref], before, after)))
  }

  function Attack(w: WorldState, order: Order, ref: SessionRef, skill: string, target: string): Outcome {
    if ref !in w.players then Outcome(w, [WorldEvent(ref, NotInWorld)])
    else
      var p := w.players[ref];
      Outcome(w.(ticks := w.ticks + 1),
              Emit(order(w.ticks, WatchersAround(w, p.sector)), AttackNotice(p, skill, target)))
  }

  datatype Op =
    | DoEnter(ref: SessionRef, account: string, character: string, x: int, y: int)
    | DoMove(ref: SessionRef, x: int, y: int)
    | DoAttack(ref: SessionRef, skill: string, target: string)
    | DoLeave(ref: SessionRef)

  function Apply(w: WorldState, order: Order, op: Op): Outcome {
    match op
    case DoEnter(ref, account, character, x, y) => Enter(w, order, ref, account, character, x, y)
    case DoMove(ref, x, y) => Move(w, order, ref, x, y)
    case DoAttack(ref, skill, target) => Attack(w, order, ref, skill, target)
    case DoLeave(ref) => Leave(w, order, ref)
  }

  function Run(w: WorldState, order: Order, ops: seq<Op>): WorldState {
    if ops == [] then w else Apply(Run(w, order, ops[..|ops| - 1]), order, ops[|ops| - 1]).world
  }

  function EmptyWorld(size: pos, radius: nat): WorldState {
    WorldState(size, radius, map[], map[], 0)
  }

  // ---------- The index is kept ----------

  lemma LeaveKeepsIndex(w: WorldState, order: Order, ref: SessionRef)
    requires IndexValid(w)
    ensures IndexValid(Leave(w, order, ref).world)
  {
    if ref in w.players {
      EraseKeepsOthers(w.sectors, w.players[ref].sector, ref);
    }
  }

  // The buckets lose the one player and nobody else.
  lemma EraseKeepsOthers(sectors: map<SectorCoord, set<SessionRef>>, c: SectorCoord, ref: SessionRef)
    requires forall d :: d in sectors ==> sectors[d] != {}
    requires forall d :: d in sectors && ref in sectors[d] ==> d == c
    ensures var erased := EraseFromSector(sectors, c, ref);
            && (forall d :: d in erased ==> d in sectors && erased[d] != {})
            && (forall d, r :: d in erased && r in erased[d] <==> d in sectors && r in sectors[d] && r != ref)
  {
    forall r | c in sectors && r in sectors[c] && r != ref ensures r in sectors[c] - {ref} {
    }
  }

  lemma ArriveKeepsIndex(w: WorldState, order: Order, p: PlayerState)
    requires IndexValid(w) && p.ref !in w.players && p.sector == SectorFor(w.size, p.x, p.y)
    ensures IndexValid(Arrive(w, order, p).world)
  {
  }

  lemma MoveKeepsIndex(w: WorldState, ref: SessionRef, x: int, y: int)
    requires IndexValid(w) && ref in w.players
    ensures IndexValid(Relocated(w, ref, x, y))
  {
    var p := w.players[ref];
    var w1 := Relocated(w, ref, x, y);
    var c1 := SectorFor(w.size, x, y);
    if p.sector != c1 {
      var erased := EraseFromSector(w.sectors, p.sector, ref);
      assert forall c, r :: c in erased && r in erased[c] ==> c in w.sectors && r in w.sectors[c] && r != ref;
      forall r | r in w1.players ensures w1.players[r].sector in w1.sectors && r in w1.sectors[w1.players[r].sector] {
        if r != ref {
          assert r in w.sectors[w.players[r].sector] - {ref};
          assert w.players[r].sector in erased && r in erased[w.players[r].sector];
        }
      }
    }
  }

  lemma ApplyKeepsIndex(w: WorldState, order: Order, op: Op)
    requires IndexValid(w)
    ensures IndexValid(Apply(w, order, op).world)
    ensures Apply(w, order, op).world.size == w.size && Apply(w, order, op).world.radius == w.radius
  {
    match op
    case DoEnter(ref, account, character, x, y) =>
      LeaveKeepsIndex(w, order, ref);
      var left := Leave(w, order, ref).world;
      ArriveKeepsIndex(left, order, PlayerState(ref, account, character, x, y, SectorFor(w.size, x, y)));
    case DoMove(ref, x, y) =>
      if ref in w.players { MoveKeepsIndex(w, ref, x, y); }
    case DoAttack(_, _, _) =>
    case DoLeave(ref) => LeaveKeepsIndex(w, order, ref);
  }

  /** After any sequence of operations the index answers every query like a scan of all players. */
  lemma {:induction false} IndexRefinesScan(size: pos, radius: nat, order: Order, ops: seq<Op>, c: SectorCoord)
    ensures var w := Run(EmptyWorld(size, radius), order, ops);
            && IndexValid(w)
            && w.size == size && w.radius == radius
            && WatchersAround(w, c) == PlayersAround(w, c)
  {
    var w := Run(EmptyWorld(size, radius), order, ops);
    if ops == [] {
    } else {
      IndexRefinesScan(size, radius, order, ops[..|ops| - 1], c);
      ApplyKeepsIndex(Run(EmptyWorld(size, radius), order, ops[..|ops| - 1]), order, ops[|ops| - 1]);
    }
    IndexAnswersTheScan(w, c);
  }

  // ---------- Who is told what ----------

  // The lines addressed to one receiver, in order.
  function LinesFor(events: seq<WorldEvent>, o: SessionRef): seq<WorldLine> {
    if events == [] then []
    else
      var rest := LinesFor(events[..|events| - 1], o);
      var last := events[|events| - 1];
      if last.receiver == o then rest + [last.line] else rest
  }

  lemma {:induction false} LinesForConcat(a: seq<WorldEvent>, b: seq<WorldEvent>, o: SessionRef)
    ensures LinesFor(a + b, o) == LinesFor(a, o) + LinesFor(b, o)
  {
    if b == [] {
      assert a + b == a;
    } else {
      LinesForConcat(a, b[..|b| - 1], o);
      assert (a + b)[..|a + b| - 1] == a + b[..|b| - 1];
    }
  }

  lemma LinesForFew(events: seq<WorldEvent>, o: SessionRef)
    requires |events| <= 1
    ensures LinesFor(events, o) == if events != [] && events[0].receiver == o then [events[0].line] else []
  {
    if events != [] {
      assert events[..0] == [];
    }
  }

  /** In a loop whose body for `r` writes only to `r`, an observer gets what its own turn emits. */
  lemma {:induction false} EmitFor(refs: seq<SessionRef>, notice: SessionRef -> seq<WorldEvent>, o: SessionRef)
    requires forall i, j :: 0 <= i < j < |refs| ==> refs[i] != refs[j]
    requires forall r :: r in refs && r != o ==> LinesFor(notice(r), o) == []
    ensures LinesFor(Emit(refs, notice), o) == if o in refs then LinesFor(notice(o), o) else []
  {
    if refs == [] {
    } else {
      var most, last := refs[..|refs| - 1], refs[|refs| - 1];
      EmitFor(most, notice, o);
      LinesForConcat(Emit(most, notice), notice(last), o);
      assert refs == most + [last];
    }
  }

  // An event that the receiver `o` gets when it saw the player before the move iff `before`
  // and sees it afterwards iff `after`.
  function MoveLine(p: PlayerState, before: bool, after: bool): seq<WorldLine> {
    if before && after then [MoveSeen(p)]
    else if after then [EnterSeen(p)]
    else if before then [Despawned(p, SectorOut)]
    else []
  }

  // Whether the player `o` has the player `ref` within its view: a scan, no index.
  predicate Sees(w: WorldState, o: SessionRef, ref: SessionRef) {
    o in w.players && ref in w.players && Near(w.radius, w.players[ref].sector, w.players[o].sector)
  }

  /** A move tells the mover `Moved`, tells every other player exactly the one line that its
      view before and after calls for, and tells nobody else. */
  lemma MoveNotifies(w: WorldState, order: Order, ref: SessionRef, x: int, y: int, o: SessionRef)
    requires IndexValid(w) && ValidOrder(order) && ref in w.players
    ensures var m := Move(w, order, ref, x, y);
            && m.world.players.Keys == w.players.Keys
            && LinesFor(m.events, o) ==
               if o == ref then [Moved(m.world.players[ref])]
               else MoveLine(m.world.players[ref], Sees(w, o, ref), Sees(m.world, o, ref))
  {
    var w1 := Relocated(w, ref, x, y);
    var p := w1.players[ref];
    MoveKeepsIndex(w, ref, x, y);
    IndexAnswersTheScan(w, w.players[ref].sector);
    IndexAnswersTheScan(w1, p.sector);
    var before := WatchersAround(w, w.players[ref].sector);
    var after := WatchersAround(w1, p.sector);
    var refs := order(w.ticks, before + after);
    assert Enumerates(refs, before + after);
    forall r | r in refs ensures LinesFor(MoveNotice(p, before, after)(r), o) ==
        if r != o then []
        else if o == ref then [Moved(p)] else MoveLine(p, o in before, o in after)
    {
      LinesForFew(MoveNotice(p, before, after)(r), o);
    }
    EmitFor(refs, MoveNotice(p, before, after), o);
  }

  /** Nobody is told of entering or leaving when a player moves within its sector. */
  lemma MoveInSector(w: WorldState, order: Order, ref: SessionRef, x: int, y: int, o: SessionRef)
    requires IndexValid(w) && ValidOrder(order) && ref in w.players
    requires SectorFor(w.size, x, y) == w.players[ref].sector
    ensures var m := Move(w, order, ref, x, y);
            LinesFor(m.events, o) ==
              if o == ref then [Moved(m.world.players[ref])]
              else if Sees(w, o, ref) then [MoveSeen(m.world.players[ref])]
              else []
  {
    MoveNotifies(w, order, ref, x, y, o);
  }

  lemma LeaveNotifies(w: WorldState, order: Order, ref: SessionRef, o: SessionRef)
    requires IndexValid(w) && ValidOrder(order) && ref in w.players
    ensures LinesFor(Leave(w, order, ref).events, o) ==
            if o != ref && Sees(w, o, ref) then [Despawned(w.players[ref], Gone)] else []
  {
    var p := w.players[ref];
    IndexAnswersTheScan(w, p.sector);
    var refs := order(w.ticks, WatchersAround(w, p.sector));
    assert Enumerates(refs, WatchersAround(w, p.sector));
    forall r | r in refs ensures LinesFor(LeaveNotice(p)(r), o) ==
        if r == o && o != ref then [Despawned(p, Gone)] else []
    {
      LinesForFew(LeaveNotice(p)(r), o);
    }
    EmitFor(refs, LeaveNotice(p), o);
  }

  lemma AttackNotifies(w: WorldState, order: Order, ref: SessionRef, skill: string, target: string, o: SessionRef)
    requires IndexValid(w) && ValidOrder(order) && ref in w.players
    ensures LinesFor(Attack(w, order, ref, skill, target).events, o) ==
            if o == ref then [Attacked(skill, target)]
            else if Sees(w, o, ref) then [AttackSeen(w.players[ref], skill, target)]
            else []
  {
    var p := w.players[ref];
    IndexAnswersTheScan(w, p.sector);
    var refs := order(w.ticks, WatchersAround(w, p.sector));
    assert Enumerates(refs, WatchersAround(w, p.sector));
    forall r | r in refs ensures LinesFor(AttackNotice(p, skill, target)(r), o) ==
        if r != o then [] else if o == ref then [Attacked(skill, target)] else [AttackSeen(p, skill, target)]
    {
      LinesForFew(AttackNotice(p, skill, target)(r), o);
    }
    EmitFor(refs, AttackNotice(p, skill, target), o);
  }

  /** Whoever moves or attacks without being in the world changes nothing, is told so, and is the only
      one to be told anything. */
  lemma AbsentAreTold(w: WorldState, order: Order, ref: SessionRef, op: Op, o: SessionRef)
    requires ref !in w.players && op.ref == ref && (op.DoMove? || op.DoAttack?)
    ensures Apply(w, order, op).world == w
    ensures LinesFor(Apply(w, order, op).events, o) == if o == ref then [NotInWorld] else []
  {
    LinesForFew(Apply(w, order, op).events, o);
  }

  // One snapshot line per player other than `ref`, in iteration order.
  function Snapshots(players: map<SessionRef, PlayerState>, ref: SessionRef, refs: seq<SessionRef>): seq<WorldLine> {
    if refs == [] then []
    else
      var rest := Snapshots(players, ref, refs[..|refs| - 1]);
      var r := refs[|refs| - 1];
      if r == ref || r !in players then rest else rest + [Snapshot(players[r])]
  }

  lemma {:induction false} SnapshotLines(
    players: map<SessionRef, PlayerState>, ref: SessionRef, refs: seq<SessionRef>, o: SessionRef)
    ensures LinesFor(Emit(refs, SnapshotNotice(players, ref)), o)
            == if o == ref then Snapshots(players, ref, refs) else []
  {
    if refs == [] {
    } else {
      var most, last := refs[..|refs| - 1], refs[|refs| - 1];
      SnapshotLines(players, ref, most, o);
      LinesForConcat(Emit(most, SnapshotNotice(players, ref)), SnapshotNotice(players, ref)(last), o);
      LinesForFew(SnapshotNotice(players, ref)(last), o);
    }
  }

  lemma EntryLines(p: PlayerState, refs: seq<SessionRef>, o: SessionRef)
    requires forall i, j :: 0 <= i < j < |refs| ==> refs[i] != refs[j]
    ensures LinesFor(Emit(refs, EnterNotice(p)), o) ==
            if o !in refs then [] else if o == p.ref then [Entered(p)] else [EnterSeen(p)]
  {
    forall r | r in refs ensures LinesFor(EnterNotice(p)(r), o) ==
        if r != o then [] else if o == p.ref then [Entered(p)] else [EnterSeen(p)]
    {
      LinesForFew(EnterNotice(p)(r), o);
    }
    EmitFor(refs, EnterNotice(p), o);
  }

  lemma ArriveNotifies(w: WorldState, order: Order, p: PlayerState, o: SessionRef)
    requires IndexValid(w) && ValidOrder(order)
    requires p.ref !in w.players && p.sector == SectorFor(w.size, p.x, p.y)
    ensures var a := Arrive(w, order, p);
            LinesFor(a.events, o) ==
              if o == p.ref then
                [Entered(p)] + Snapshots(a.world.players, o, order(w.ticks, PlayersAround(a.world, p.sector)))
              else if Sees(a.world, o, p.ref) then [EnterSeen(p)]
              else []
  {
    ArriveKeepsIndex(w, order, p);
    var w1 := Arrive(w, order, p).world;
    IndexAnswersTheScan(w1, p.sector);
    var watchers := WatchersAround(w1, p.sector);
    var refs := order(w.ticks, watchers);
    assert Enumerates(refs, watchers);
    EntryLines(p, refs, o);
    SnapshotLines(w1.players, p.ref, refs, o);
    LinesForConcat(Emit(refs, EnterNotice(p)), Emit(refs, SnapshotNotice(w1.players, p.ref)), o);
  }

  /** Nobody outside the world is told of an operation, except whoever asked for it. */
  lemma StrangersNotTold(w: WorldState, order: Order, op: Op, o: SessionRef)
    requires IndexValid(w) && ValidOrder(order) && o !in w.players && o != op.ref
    ensures LinesFor(Apply(w, order, op).events, o) == []
  {
    match op
    case DoEnter(ref, account, character, x, y) =>
      var left := Leave(w, order, ref);
      LeaveKeepsIndex(w, order, ref);
      if ref in w.players { LeaveNotifies(w, order, ref, o); }
      var p := PlayerState(ref, account, character, x, y, SectorFor(w.size, x, y));
      ArriveNotifies(left.world, order, p, o);
      LinesForConcat(left.events, Arrive(left.world, order, p).events, o);
    case DoMove(ref, x, y) =>
      if ref in w.players { MoveNotifies(w, order, ref, x, y, o); } else { LinesForFew(Apply(w, order, op).events, o); }
    case DoAttack(ref, skill, target) =>
      if ref in w.players { AttackNotifies(w, order, ref, skill, target, o); }
      else { LinesForFew(Apply(w, order, op).events, o); }
    case DoLeave(ref) =>
      if ref in w.players { LeaveNotifies(w, order, ref, o); }
  }

  lemma {:induction false} ToldAreReceivers(events: seq<WorldEvent>, e: WorldEvent)
    requires e in events
    ensures e.line in LinesFor(events, e.receiver)
  {
    var last := events[|events| - 1];
    if e == last {
    } else {
      assert events == events[..|events| - 1] + [last];
      ToldAreReceivers(events[..|events| - 1], e);
    }
  }
}

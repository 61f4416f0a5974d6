/** What a client knows of the players around it, as a fold of the lines it is sent, and when
    that knowledge is right. */
module Views {
  import opened Geometry
  import opened World

  // What a client can say about another player.
  datatype Seen = Seen(character: string, x: int, y: int, sector: SectorCoord)

  type View = map<SessionRef, Seen>

  function SeenOf(p: PlayerState): Seen {
    Seen(p.character, p.x, p.y, p.sector)
  }

  // A client forgets everything when it is told it has entered, adds whoever it is shown,
  // updates whoever it knows, and drops whoever despawns.
  function Observe(v: View, line: WorldLine): View {
    match line
    case Entered(_) => map[]
    case Snapshot(p) => v[p.ref := SeenOf(p)]
    case EnterSeen(p) => v[p.ref := SeenOf(p)]
    case MoveSeen(p) => if p.ref in v then v[p.ref := SeenOf(p)] else v
    case Despawned(p, _) => v - {p.ref}
    case _ => v
  }

  function ObserveAll(v: View, lines: seq<WorldLine>): View {
    if lines == [] then v
    else Observe(ObserveAll(v, lines[..|lines| - 1]), lines[|lines| - 1])
  }

  // The other players within the view radius of a sector: a scan, no index.
  function OthersAround(w: WorldState, o: SessionRef, c: SectorCoord): set<SessionRef> {
    set r | r in w.players && r != o && Near(w.radius, c, w.players[r].sector)
  }

  /** The view that `o` ought to have: the other players it sees, each where it is now. */
  function TrueView(w: WorldState, o: SessionRef): View
    requires o in w.players
  {
    map r | r in w.players && r in OthersAround(w, o, w.players[o].sector) :: SeenOf(w.players[r])
  }

  lemma {:induction false} ObserveConcat(v: View, a: seq<WorldLine>, b: seq<WorldLine>)
    ensures ObserveAll(v, a + b) == ObserveAll(ObserveAll(v, a), b)
  {
    if b == [] {
      assert a + b == a;
    } else {
      ObserveConcat(v, a, b[..|b| - 1]);
      assert (a + b)[..|a + b| - 1] == a + b[..|b| - 1];
    }
  }

  lemma ObserveOne(v: View, line: WorldLine)
    ensures ObserveAll(v, []) == v
    ensures ObserveAll(v, [line]) == Observe(v, line)
  {
    assert [line][..0] == [];
  }

  lemma {:induction false} ObserveSnapshots(players: map<SessionRef, PlayerState>, o: SessionRef, refs: seq<SessionRef>)
    requires forall r :: r in players ==> players[r].ref == r
    ensures ObserveAll(map[], Snapshots(players, o, refs))
            == map r | r in players && r in refs && r != o :: SeenOf(players[r])
  {
    if refs == [] {
    } else {
      var most, last := refs[..|refs| - 1], refs[|refs| - 1];
      ObserveSnapshots(players, o, most);
      assert refs == most + [last];
      if last != o && last in players {
        ObserveConcat(map[], Snapshots(players, o, most), [Snapshot(players[last])]);
        ObserveOne(ObserveAll(map[], Snapshots(players, o, most)), Snapshot(players[last]));
        OneMoreShown(players, o, most, last);
      } else {
        assert forall r :: r in players && r != o ==> (r in refs <==> r in most);
      }
    }
  }

  lemma OneMoreShown(players: map<SessionRef, PlayerState>, o: SessionRef, most: seq<SessionRef>, last: SessionRef)
    requires last != o && last in players
    ensures (map r | r in players && r in most + [last] && r != o :: SeenOf(players[r])) ==
            (map r | r in players && r in most && r != o :: SeenOf(players[r]))[last := SeenOf(players[last])]
  {
  }

  // ---------- One operation ----------

  // The view after one player other than the observer was put at `p`, or removed.
  lemma ViewWith(w: WorldState, w1: WorldState, o: SessionRef, p: PlayerState)
    requires o in w.players && o != p.ref
    requires w1.players == w.players[p.ref := p] && w1.radius == w.radius
    ensures TrueView(w1, o) ==
      if Sees(w1, o, p.ref) then TrueView(w, o)[p.ref := SeenOf(p)] else TrueView(w, o) - {p.ref}
    ensures p.ref in TrueView(w, o) <==> Sees(w, o, p.ref)
  {
  }

  lemma ViewWithout(w: WorldState, w1: WorldState, o: SessionRef, ref: SessionRef)
    requires o in w.players && o != ref
    requires w1.players == w.players - {ref} && w1.radius == w.radius
    ensures TrueView(w1, o) == TrueView(w, o) - {ref}
    ensures ref in TrueView(w, o) <==> Sees(w, o, ref)
  {
  }

  lemma ObserveMoveLine(v: View, p: PlayerState, before: bool, after: bool)
    requires p.ref in v <==> before
    ensures ObserveAll(v, MoveLine(p, before, after)) == if after then v[p.ref := SeenOf(p)] else v - {p.ref}
  {
    var lines := MoveLine(p, before, after);
    if lines == [] {
      ObserveOne(v, NotInWorld);
    } else {
      ObserveOne(v, lines[0]);
    }
  }

  lemma MoveKeepsOthersView(w: WorldState, order: Order, ref: SessionRef, x: int, y: int, o: SessionRef)
    requires IndexValid(w) && ValidOrder(order)
    requires o in w.players && ref in w.players && o != ref
    ensures var m := Move(w, order, ref, x, y);
            o in m.world.players && ObserveAll(TrueView(w, o), LinesFor(m.events, o)) == TrueView(m.world, o)
  {
    var m := Move(w, order, ref, x, y);
    var p := m.world.players[ref];
    MoveNotifies(w, order, ref, x, y, o);
    ViewWith(w, m.world, o, p);
    ObserveMoveLine(TrueView(w, o), p, Sees(w, o, ref), Sees(m.world, o, ref));
  }

  // The guard a mover's own view depends on: the same others are around before and after.
  predicate SameCompany(w: WorldState, ref: SessionRef, x: int, y: int)
    requires ref in w.players
  {
    OthersAround(w, ref, w.players[ref].sector) == OthersAround(w, ref, SectorFor(w.size, x, y))
  }

  /** A mover is told nothing about others, so a right view stays right exactly when the move
      brings no other player into or out of range. */
  lemma MoveOwnView(w: WorldState, order: Order, ref: SessionRef, x: int, y: int)
    requires IndexValid(w) && ValidOrder(order) && ref in w.players
    ensures var m := Move(w, order, ref, x, y);
            && ref in m.world.players
            && (ObserveAll(TrueView(w, ref), LinesFor(m.events, ref)) == TrueView(m.world, ref)
                <==> SameCompany(w, ref, x, y))
  {
    var m := Move(w, order, ref, x, y);
    MoveNotifies(w, order, ref, x, y, ref);
    ObserveOne(TrueView(w, ref), Moved(m.world.players[ref]));
    ViewElsewhere(w, m.world, m.world.players[ref]);
  }

  // The view of a player that was itself put at `p`.
  lemma ViewElsewhere(w: WorldState, w1: WorldState, p: PlayerState)
    requires p.ref in w.players
    requires w1.players == w.players[p.ref := p] && w1.radius == w.radius
    ensures TrueView(w, p.ref) == TrueView(w1, p.ref)
            <==> OthersAround(w, p.ref, w.players[p.ref].sector) == OthersAround(w, p.ref, p.sector)
  {
    assert TrueView(w, p.ref).Keys == OthersAround(w, p.ref, w.players[p.ref].sector);
    assert TrueView(w1, p.ref).Keys == OthersAround(w, p.ref, p.sector);
  }

  lemma ViewAfterDespawn(w: WorldState, w1: WorldState, o: SessionRef, p: PlayerState, lines: seq<WorldLine>)
    requires o in w.players && o != p.ref
    requires w1.players == w.players - {p.ref} && w1.radius == w.radius
    requires lines == if Sees(w, o, p.ref) then [Despawned(p, Gone)] else []
    ensures ObserveAll(TrueView(w, o), lines) == TrueView(w1, o)
  {
    ViewWithout(w, w1, o, p.ref);
    ObserveOne(TrueView(w, o), Despawned(p, Gone));
  }

  lemma ViewAfterEnter(w: WorldState, w1: WorldState, o: SessionRef, p: PlayerState, lines: seq<WorldLine>)
    requires o in w.players && p.ref !in w.players
    requires w1.players == w.players[p.ref := p] && w1.radius == w.radius
    requires lines == if Sees(w1, o, p.ref) then [EnterSeen(p)] else []
    ensures ObserveAll(TrueView(w, o), lines) == TrueView(w1, o)
  {
    ViewWith(w, w1, o, p);
    ObserveOne(TrueView(w, o), EnterSeen(p));
  }

  lemma LeaveKeepsOthersView(w: WorldState, order: Order, ref: SessionRef, o: SessionRef)
    requires IndexValid(w) && ValidOrder(order) && o in w.players && o != ref
    ensures var l := Leave(w, order, ref);
            o in l.world.players && ObserveAll(TrueView(w, o), LinesFor(l.events, o)) == TrueView(l.world, o)
  {
    var l := Leave(w, order, ref);
    if ref in w.players {
      LeaveNotifies(w, order, ref, o);
      ViewAfterDespawn(w, l.world, o, w.players[ref], LinesFor(l.events, o));
    } else {
      ObserveOne(TrueView(w, o), NotInWorld);
    }
  }

  lemma ArriveKeepsOthersView(w: WorldState, order: Order, p: PlayerState, o: SessionRef)
    requires IndexValid(w) && ValidOrder(order) && o in w.players
    requires p.ref !in w.players && p.sector == SectorFor(w.size, p.x, p.y)
    ensures var a := Arrive(w, order, p);
            o in a.world.players && ObserveAll(TrueView(w, o), LinesFor(a.events, o)) == TrueView(a.world, o)
  {
    var a := Arrive(w, order, p);
    ArriveNotifies(w, order, p, o);
    ViewAfterEnter(w, a.world, o, p, LinesFor(a.events, o));
  }

  lemma ArriveGivesView(w: WorldState, order: Order, p: PlayerState, v: View)
    requires IndexValid(w) && ValidOrder(order)
    requires p.ref !in w.players && p.sector == SectorFor(w.size, p.x, p.y)
    ensures var a := Arrive(w, order, p);
            p.ref in a.world.players && ObserveAll(v, LinesFor(a.events, p.ref)) == TrueView(a.world, p.ref)
  {
    var a := Arrive(w, order, p);
    ArriveKeepsIndex(w, order, p);
    ArriveNotifies(w, order, p, p.ref);
    var around := PlayersAround(a.world, p.sector);
    var refs := order(w.ticks, around);
    assert Enumerates(refs, around);
    var snapshots := Snapshots(a.world.players, p.ref, refs);
    ObserveConcat(v, [Entered(p)], snapshots);
    ObserveOne(v, Entered(p));
    ObserveSnapshots(a.world.players, p.ref, refs);
    ShownIsTrue(a.world, p.ref, refs);
  }

  lemma ShownIsTrue(w: WorldState, o: SessionRef, refs: seq<SessionRef>)
    requires o in w.players && forall r :: r in refs <==> r in PlayersAround(w, w.players[o].sector)
    ensures (map r | r in w.players && r in refs && r != o :: SeenOf(w.players[r])) == TrueView(w, o)
  {
  }

  /** Entering shows the entrant everybody around, and shows it to everybody around, whether or
      not it was in the world before. */
  lemma EnterViews(w: WorldState, order: Order, op: Op, o: SessionRef, v: View)
    requires IndexValid(w) && ValidOrder(order) && op.DoEnter?
    requires o == op.ref || (o in w.players && v == TrueView(w, o))
    ensures var e := Apply(w, order, op);
            o in e.world.players && ObserveAll(v, LinesFor(e.events, o)) == TrueView(e.world, o)
  {
    var p := PlayerState(op.ref, op.account, op.character, op.x, op.y, SectorFor(w.size, op.x, op.y));
    var left := Leave(w, order, op.ref);
    LeaveKeepsIndex(w, order, op.ref);
    var arrived := Arrive(left.world, order, p);
    LinesForConcat(left.events, arrived.events, o);
    ObserveConcat(v, LinesFor(left.events, o), LinesFor(arrived.events, o));
    if o == op.ref {
      ArriveGivesView(left.world, order, p, ObserveAll(v, LinesFor(left.events, o)));
    } else {
      LeaveKeepsOthersView(w, order, op.ref, o);
      ArriveKeepsOthersView(left.world, order, p, o);
    }
  }

  lemma AttackKeepsViews(w: WorldState, order: Order, op: Op, o: SessionRef, v: View)
    requires IndexValid(w) && ValidOrder(order) && op.DoAttack?
    ensures ObserveAll(v, LinesFor(Apply(w, order, op).events, o)) == v
  {
    var a := Apply(w, order, op);
    if op.ref in w.players {
      AttackNotifies(w, order, op.ref, op.skill, op.target, o);
    } else {
      LinesForFew(a.events, o);
    }
    var lines := LinesFor(a.events, o);
    if lines == [] { ObserveOne(v, NotInWorld); } else { ObserveOne(v, lines[0]); }
  }

  // ---------- Whole runs ----------

  // The world together with what one observer's client makes of its lines.  `settled` says that the
  // observer has entered and that none of its own moves since brought anyone into or out of range.
  datatype Watched = Watched(world: WorldState, view: View, settled: bool)

  predicate StaysSettled(w: WorldState, settled: bool, o: SessionRef, op: Op) {
    if op.ref != o then settled
    else match op
      case DoEnter(_, _, _, _, _) => true
      case DoMove(_, x, y) => settled && (o in w.players ==> SameCompany(w, o, x, y))
      case DoAttack(_, _, _) => settled
      case DoLeave(_) => false
  }

  function Step(t: Watched, order: Order, o: SessionRef, op: Op): Watched {
    var a := Apply(t.world, order, op);
    Watched(a.world, ObserveAll(t.view, LinesFor(a.events, o)), StaysSettled(t.world, t.settled, o, op))
  }

  function Watch(t: Watched, order: Order, o: SessionRef, ops: seq<Op>): Watched {
    if ops == [] then t else Step(Watch(t, order, o, ops[..|ops| - 1]), order, o, ops[|ops| - 1])
  }

  predicate Accurate(t: Watched, o: SessionRef) {
    o in t.world.players && t.view == TrueView(t.world, o)
  }

  ghost predicate WatchedValid(t: Watched, o: SessionRef) {
    IndexValid(t.world) && (t.settled ==> Accurate(t, o))
  }

  /** One operation by anybody keeps a right view right exactly when it keeps the observer settled. */
  lemma StepAccurate(t: Watched, order: Order, o: SessionRef, op: Op)
    requires ValidOrder(order) && IndexValid(t.world)
    requires Accurate(t, o) || (op.DoEnter? && op.ref == o)
    ensures Accurate(Step(t, order, o, op), o) <==> StaysSettled(t.world, true, o, op)
  {
    match op
    case DoEnter(ref, _, _, _, _) => EnterViews(t.world, order, op, o, t.view);
    case DoMove(ref, x, y) =>
      if ref == o {
        MoveOwnView(t.world, order, o, x, y);
      } else if ref in t.world.players {
        MoveKeepsOthersView(t.world, order, ref, x, y, o);
      } else {
        LinesForFew(Apply(t.world, order, op).events, o);
      }
    case DoAttack(_, _, _) => AttackKeepsViews(t.world, order, op, o, t.view);
    case DoLeave(ref) =>
      if ref != o { LeaveKeepsOthersView(t.world, order, ref, o); }
  }

  /** Over every run, by any number of players, of entering, moving, attacking and leaving: a
      client whose own moves since its last ENTER brought nobody into or out of range knows
      exactly the players around it, each at its current coordinates. */
  lemma {:induction false} SettledViewIsAccurate(
    size: pos, radius: nat, order: Order, o: SessionRef, v: View, ops: seq<Op>)
    requires ValidOrder(order)
    ensures WatchedValid(Watch(Watched(EmptyWorld(size, radius), v, false), order, o, ops), o)
  {
    if ops == [] {
    } else {
      SettledViewIsAccurate(size, radius, order, o, v, ops[..|ops| - 1]);
      var t := Watch(Watched(EmptyWorld(size, radius), v, false), order, o, ops[..|ops| - 1]);
      var op := ops[|ops| - 1];
      ApplyKeepsIndex(t.world, order, op);
      if Step(t, order, o, op).settled {
        StepAccurate(t, order, o, op);
      }
    }
  }

  predicate Remains(o: SessionRef, ops: seq<Op>) {
    forall i :: 0 <= i < |ops| && ops[i].ref == o ==> ops[i].DoMove? || ops[i].DoAttack?
  }

  // Whether the observer's view is right after a given history.
  function AccurateAfter(t: Watched, order: Order, o: SessionRef): seq<Op> -> bool {
    ops => Accurate(Watch(t, order, o, ops), o)
  }

  ghost predicate AtAllTimes(good: seq<Op> -> bool, ops: seq<Op>) {
    forall k :: 0 <= k <= |ops| ==> good(ops[..k])
  }

  lemma AtAllTimesExtends(good: seq<Op> -> bool, ops: seq<Op>)
    ensures AtAllTimes(good, ops) ==> good(ops)
    ensures ops != [] ==> (AtAllTimes(good, ops) <==> AtAllTimes(good, ops[..|ops| - 1]) && good(ops))
    ensures ops == [] ==> (AtAllTimes(good, ops) <==> good([]))
  {
    assert ops[..|ops|] == ops;
    if ops != [] {
      var most := ops[..|ops| - 1];
      assert forall k :: 0 <= k <= |most| ==> ops[..k] == most[..k];
    }
  }

  /** Between an observer's ENTER and its departure its view is right at every moment exactly
      when every one of its own moves kept the same company. */
  lemma {:induction false} AlwaysAccurateIffSettled(t: Watched, order: Order, o: SessionRef, ops: seq<Op>)
    requires ValidOrder(order) && IndexValid(t.world) && t.settled && Accurate(t, o) && Remains(o, ops)
    ensures IndexValid(Watch(t, order, o, ops).world)
    ensures AtAllTimes(AccurateAfter(t, order, o), ops) <==> Watch(t, order, o, ops).settled
  {
    AtAllTimesExtends(AccurateAfter(t, order, o), ops);
    if ops == [] {
    } else {
      var most, op := ops[..|ops| - 1], ops[|ops| - 1];
      AlwaysAccurateIffSettled(t, order, o, most);
      AtAllTimesExtends(AccurateAfter(t, order, o), most);
      WatchStepAccurate(Watch(t, order, o, most), order, o, op);
    }
  }

  lemma WatchStepAccurate(t: Watched, order: Order, o: SessionRef, op: Op)
    requires ValidOrder(order) && IndexValid(t.world) && Remains(o, [op])
    ensures IndexValid(Step(t, order, o, op).world)
    ensures Accurate(t, o) ==>
              (Accurate(Step(t, order, o, op), o) <==> StaysSettled(t.world, true, o, op))
  {
    ApplyKeepsIndex(t.world, order, op);
    if Accurate(t, o) {
      StepAccurate(t, order, o, op);
    }
  }

  // An observer that stays in the sector it entered is settled.
  predicate StaysInSector(size: pos, o: SessionRef, c: SectorCoord, ops: seq<Op>) {
    && Remains(o, ops)
    && forall i :: 0 <= i < |ops| && ops[i].ref == o && ops[i].DoMove? ==> SectorFor(size, ops[i].x, ops[i].y) == c
  }

  ghost predicate SettledIn(t: Watched, o: SessionRef, size: pos, c: SectorCoord) {
    && IndexValid(t.world) && t.world.size == size
    && t.settled && Accurate(t, o) && t.world.players[o].sector == c
  }

  lemma StepInSector(t: Watched, order: Order, o: SessionRef, size: pos, c: SectorCoord, op: Op)
    requires ValidOrder(order) && SettledIn(t, o, size, c) && StaysInSector(size, o, c, [op])
    ensures SettledIn(Step(t, order, o, op), o, size, c)
  {
    assert [op][0] == op;
    ApplyKeepsIndex(t.world, order, op);
    StepAccurate(t, order, o, op);
    OwnSector(t.world, order, op, o);
  }

  lemma OwnSector(w: WorldState, order: Order, op: Op, o: SessionRef)
    requires IndexValid(w) && o in w.players
    requires op.ref == o ==> op.DoAttack? || (op.DoMove? && SectorFor(w.size, op.x, op.y) == w.players[o].sector)
    ensures o in Apply(w, order, op).world.players
    ensures Apply(w, order, op).world.players[o].sector == w.players[o].sector
  {
  }

  lemma {:induction false} RunInSector(
    t: Watched, order: Order, o: SessionRef, size: pos, c: SectorCoord, ops: seq<Op>)
    requires ValidOrder(order) && SettledIn(t, o, size, c) && StaysInSector(size, o, c, ops)
    ensures SettledIn(Watch(t, order, o, ops), o, size, c)
  {
    if ops == [] {
    } else {
      RunInSector(t, order, o, size, c, ops[..|ops| - 1]);
      StepInSector(Watch(t, order, o, ops[..|ops| - 1]), order, o, size, c, ops[|ops| - 1]);
    }
  }

  lemma EnterSettles(t: Watched, order: Order, op: Op)
    requires ValidOrder(order) && IndexValid(t.world) && op.DoEnter?
    ensures SettledIn(Step(t, order, op.ref, op), op.ref, t.world.size, SectorFor(t.world.size, op.x, op.y))
  {
    ApplyKeepsIndex(t.world, order, op);
    StepAccurate(t, order, op.ref, op);
  }

  lemma WithoutTheLast<T>(a: seq<T>, b: seq<T>)
    requires b != []
    ensures (a + b)[..|a + b| - 1] == a + b[..|b| - 1] && (a + b)[|a + b| - 1] == b[|b| - 1]
  {
  }

  lemma {:induction false} WatchConcat(t: Watched, order: Order, o: SessionRef, a: seq<Op>, b: seq<Op>)
    ensures Watch(t, order, o, a + b) == Watch(Watch(t, order, o, a), order, o, b)
  {
    if b == [] {
      assert a + b == a;
    } else {
      WatchConcat(t, order, o, a, b[..|b| - 1]);
      WithoutTheLast(a, b);
    }
  }

  lemma WatchOne(t: Watched, order: Order, o: SessionRef, op: Op)
    ensures Watch(t, order, o, [op]) == Step(t, order, o, op)
  {
    assert [op][..0] == [];
  }

  lemma {:induction false} WatchFollowsRun(t: Watched, order: Order, o: SessionRef, ops: seq<Op>)
    ensures Watch(t, order, o, ops).world == Run(t.world, order, ops)
  {
    if ops == [] {
    } else {
      WatchFollowsRun(t, order, o, ops[..|ops| - 1]);
    }
  }

  /** An observer that has not changed sector since its last ENTER sees exactly the other players
      within the view radius, each with its current coordinates. */
  lemma SameSectorViewIsAccurate(
    size: pos, radius: nat, order: Order, before: seq<Op>, enter: Op, after: seq<Op>)
    requires ValidOrder(order) && enter.DoEnter?
    requires StaysInSector(size, enter.ref, SectorFor(size, enter.x, enter.y), after)
    ensures var o := enter.ref;
            var w := Run(EmptyWorld(size, radius), order, before + [enter] + after);
            var t := Watch(Watched(EmptyWorld(size, radius), map[], false), order, o, before + [enter] + after);
            && t.world == w
            && SettledIn(t, o, size, SectorFor(size, enter.x, enter.y))
  {
    var o := enter.ref;
    var start := Watched(EmptyWorld(size, radius), map[], false);
    WatchFollowsRun(start, order, o, before + [enter] + after);
    WatchConcat(start, order, o, before + [enter], after);
    WatchConcat(start, order, o, before, [enter]);
    var t := Watch(start, order, o, before);
    WatchOne(t, order, o, enter);
    WatchFollowsRun(start, order, o, before);
    IndexRefinesScan(size, radius, order, before, SectorCoord(0, 0));
    EnterSettles(t, order, enter);
    RunInSector(Step(t, order, o, enter), order, o, size, SectorFor(size, enter.x, enter.y), after);
  }

  lemma EnterAdds(w: WorldState, order: Order, op: Op)
    requires op.DoEnter?
    ensures Apply(w, order, op).world.players ==
            w.players[op.ref :=
              PlayerState(op.ref, op.account, op.character, op.x, op.y, SectorFor(w.size, op.x, op.y))]
  {
  }

  lemma OwnMoveTellsNothing(t: Watched, order: Order, o: SessionRef, op: Op)
    requires ValidOrder(order) && IndexValid(t.world) && o in t.world.players
    requires op.DoMove? && op.ref == o
    ensures var t1 := Step(t, order, o, op);
            && t1.view == t.view
            && t1.world.players == Relocated(t.world, o, op.x, op.y).players
            && t1.world.radius == t.world.radius
  {
    MoveNotifies(t.world, order, o, op.x, op.y, o);
    ObserveOne(t.view, Moved(Step(t, order, o, op).world.players[o]));
  }

  // Entering a world that holds one other player.
  lemma SecondToEnter(t: Watched, order: Order, a: SessionRef, e: Op)
    requires ValidOrder(order) && IndexValid(t.world) && t.world.players.Keys == {a}
    requires e.DoEnter? && e.ref != a
    ensures var t1 := Step(t, order, e.ref, e);
            && SettledIn(t1, e.ref, t.world.size, SectorFor(t.world.size, e.x, e.y))
            && t1.world.radius == t.world.radius
            && t1.world.players.Keys == {a, e.ref}
            && t1.world.players[a] == t.world.players[a]
  {
    EnterSettles(t, order, e);
    EnterAdds(t.world, order, e);
    ApplyKeepsIndex(t.world, order, e);
  }

  lemma FirstToEnter(t: Watched, order: Order, o: SessionRef, e: Op)
    requires IndexValid(t.world) && t.world.players == map[] && e.DoEnter?
    ensures var w := Step(t, order, o, e).world;
            && IndexValid(w)
            && w.size == t.world.size && w.radius == t.world.radius
            && w.players.Keys == {e.ref}
            && w.players[e.ref].sector == SectorFor(w.size, e.x, e.y)
  {
    EnterAdds(t.world, order, e);
    ApplyKeepsIndex(t.world, order, e);
  }

  lemma LoneView(w: WorldState, o: SessionRef, a: SessionRef)
    requires w.players.Keys == {a, o} && a != o && !Near(w.radius, w.players[o].sector, w.players[a].sector)
    ensures TrueView(w, o) == map[]
  {
  }

  /** Without the condition the claim is false: with the server's own grid, a player that walks
      from beside another player to a lone sector still believes in the neighbour it left. */
  lemma WalkingAwayLeavesAStaleView(order: Order)
    requires ValidOrder(order)
    ensures var a, b := SessionRef(4, 1), SessionRef(5, 2);
            var ops := [DoEnter(a, "A", "Alice", 0, 0), DoEnter(b, "B", "Bob", 10, 10), DoMove(b, 1000, 1000)];
            var t := Watch(Watched(EmptyWorld(100, 1), map[], false), order, b, ops);
            && b in t.world.players
            && TrueView(t.world, b) == map[]
            && a in t.view
  {
    var a, b := SessionRef(4, 1), SessionRef(5, 2);
    var e1, e2, m := DoEnter(a, "A", "Alice", 0, 0), DoEnter(b, "B", "Bob", 10, 10), DoMove(b, 1000, 1000);
    var start := Watched(EmptyWorld(100, 1), map[], false);
    assert [e1, e2, m] == [e1] + [e2] + [m];
    WatchConcat(start, order, b, [e1] + [e2], [m]);
    WatchConcat(start, order, b, [e1], [e2]);
    WatchOne(start, order, b, e1);
    var t1 := Step(start, order, b, e1);
    WatchOne(t1, order, b, e2);
    var t2 := Step(t1, order, b, e2);
    WatchOne(t2, order, b, m);
    SectorsOfTheExample();
    FirstToEnter(start, order, b, e1);
    SecondToEnter(t1, order, a, e2);
    StaleAfterMove(t2, order, b, a);
  }

  lemma SectorsOfTheExample()
    ensures SectorFor(100, 0, 0) == SectorFor(100, 10, 10) == SectorCoord(0, 0)
    ensures SectorFor(100, 1000, 1000) == SectorCoord(10, 10)
  {
    FloorDivIsFloor(0, 100, 0);
    FloorDivIsFloor(10, 100, 0);
    FloorDivIsFloor(1000, 100, 10);
  }

  lemma StaleAfterMove(t: Watched, order: Order, b: SessionRef, a: SessionRef)
    requires ValidOrder(order) && SettledIn(t, b, 100, SectorCoord(0, 0)) && t.world.radius == 1
    requires a != b && t.world.players.Keys == {a, b} && t.world.players[a].sector == SectorCoord(0, 0)
    ensures var t1 := Step(t, order, b, DoMove(b, 1000, 1000));
            b in t1.world.players && TrueView(t1.world, b) == map[] && a in t1.view
  {
    var t1 := Step(t, order, b, DoMove(b, 1000, 1000));
    OwnMoveTellsNothing(t, order, b, DoMove(b, 1000, 1000));
    SectorsOfTheExample();
    LoneView(t1.world, b, a);
  }
}

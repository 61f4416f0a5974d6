/** The sector world as the object the server holds: it changes its player table and its sector
    index in place and collects events in loops.  Every method is tied to the operation on
    values of the same name in `World`. */
module SectorWorlds {
  import opened Geometry
  import W = World
  import opened World

  class SectorWorld {
    const sectorSize: pos
    const viewRadius: nat
    const order: Order  // how the hash sets iterate

    var players: map<SessionRef, PlayerState>
    var sectors: map<SectorCoord, set<SessionRef>>
    var ticks: nat

    constructor (sectorSize: pos, viewRadius: nat, order: Order)
      ensures State() == EmptyWorld(sectorSize, viewRadius)
      ensures this.order == order
    {
      this.sectorSize, this.viewRadius, this.order := sectorSize, viewRadius, order;
      players, sectors, ticks := map[], map[], 0;
    }

    // Construction fails for a sector size or a radius that makes no grid.
    static method Create(sectorSize: int, viewRadius: int, order: Order) returns (world: SectorWorld?)
      ensures world == null <==> sectorSize <= 0 || viewRadius < 0
      ensures world != null ==>
        fresh(world) && world.State() == EmptyWorld(sectorSize, viewRadius) && world.order == order
    {
      if sectorSize <= 0 || viewRadius < 0 {
        return null;
      }
      world := new SectorWorld(sectorSize, viewRadius, order);
    }

    ghost function State(): WorldState
      reads this
    {
      WorldState(sectorSize, viewRadius, players, sectors, ticks)
    }

    /** The index agrees with the player table. */
    ghost predicate Valid()
      reads this
    {
      W.IndexValid(State())
    }

    // Iterating a hash set: the environment picks the order.
    method Iterate(refs: set<SessionRef>) returns (o: seq<SessionRef>)
      modifies this`ticks
      ensures o == order(old(ticks), refs) && ticks == old(ticks) + 1
    {
      o := order(ticks, refs);
      ticks := ticks + 1;
    }

    ghost function Scanned(c: SectorCoord, dx: int, dy: int): set<SessionRef>
      reads this
    {
      set s, r | s in sectors && Near(viewRadius, c, s) && r in sectors[s] &&
                 (s.y - c.y < dy || (s.y - c.y == dy && s.x - c.x < dx)) :: r
    }

    /** The nested loops over the neighbouring sectors find every bucket within the view radius. */
    method WatchersAround(c: SectorCoord) returns (watchers: set<SessionRef>)
      ensures watchers == W.WatchersAround(State(), c)
      ensures Valid() ==> watchers == W.PlayersAround(State(), c)
    {
      watchers := {};
      var radius: int := viewRadius;
      for dy := -radius to radius + 1
        invariant watchers == Scanned(c, -radius, dy)
      {
        for dx := -radius to radius + 1
          invariant watchers == Scanned(c, dx, dy)
        {
          var current := SectorCoord(c.x + dx, c.y + dy);
          if current in sectors {
            watchers := watchers + sectors[current];
          }
        }
      }
      if Valid() {
        W.IndexAnswersTheScan(State(), c);
      }
    }

    method InsertIntoSector(p: PlayerState)
      modifies this`sectors
      ensures sectors == W.InsertIntoSector(old(sectors), p.sector, p.ref)
    {
      if p.sector !in sectors {
        sectors := sectors[p.sector := {}];
      }
      sectors := sectors[p.sector := sectors[p.sector] + {p.ref}];
    }

    method EraseFromSector(ref: SessionRef, c: SectorCoord)
      modifies this`sectors
      ensures sectors == W.EraseFromSector(old(sectors), c, ref)
    {
      if c !in sectors {
        return;
      }
      sectors := sectors[c := sectors[c] - {ref}];
      if sectors[c] == {} {
        sectors := sectors - {c};
      }
    }

    /** Entering first removes any earlier incarnation of the same session. */
    method Enter(ref: SessionRef, account: string, character: string, x: int, y: int)
      returns (events: seq<WorldEvent>)
      requires Valid()
      modifies this
      ensures Valid()
      ensures Outcome(State(), events) == W.Enter(old(State()), order, ref, account, character, x, y)
    {
      var ignored;
      events, ignored := Leave(ref);
      var player := PlayerState(ref, account, character, x, y, SectorFor(sectorSize, x, y));
      var arrival := Arrive(player);
      events := events + arrival;
    }

    method Arrive(player: PlayerState) returns (events: seq<WorldEvent>)
      requires Valid() && player.ref !in players && player.sector == SectorFor(sectorSize, player.x, player.y)
      modifies this
      ensures Valid()
      ensures Outcome(State(), events) == W.Arrive(old(State()), order, player)
    {
      players := players[player.ref := player];
      InsertIntoSector(player);
      W.ArriveKeepsIndex(old(State()), order, player);
      events := AnnounceArrival(player);
    }

    // What `Enter` does once the player is in.
    method AnnounceArrival(player: PlayerState) returns (events: seq<WorldEvent>)
      modifies this`ticks
      ensures State() == old(State()).(ticks := old(ticks) + 1)
      ensures var refs := order(old(ticks), W.WatchersAround(old(State()), player.sector));
              events == Emit(refs, EnterNotice(player)) + Emit(refs, SnapshotNotice(players, player.ref))
    {
      var watchers := WatchersAround(player.sector);
      var refs := Iterate(watchers);
      events := AnnounceEntry(player, refs);
      var snapshots := SendSnapshots(player.ref, refs);
      events := events + snapshots;
    }

    // The first loop of `Enter`: the entrant is told it is in, everybody around that it came.
    method AnnounceEntry(player: PlayerState, refs: seq<SessionRef>)
      returns (events: seq<WorldEvent>)
      ensures events == Emit(refs, EnterNotice(player))
    {
      events := [];
      for i := 0 to |refs|
        invariant events == Emit(refs[..i], EnterNotice(player))
      {
        var receiver := refs[i];
        assert refs[..i + 1][..i] == refs[..i];
        if receiver == player.ref {
          events := events + [WorldEvent(receiver, Entered(player))];
        } else {
          events := events + [WorldEvent(receiver, EnterSeen(player))];
        }
      }
      assert refs[..|refs|] == refs;
    }

    // The second loop of `Enter`: the entrant is shown everybody around.
    method SendSnapshots(ref: SessionRef, refs: seq<SessionRef>)
      returns (events: seq<WorldEvent>)
      ensures events == Emit(refs, SnapshotNotice(players, ref))
    {
      events := [];
      for i := 0 to |refs|
        invariant events == Emit(refs[..i], SnapshotNotice(players, ref))
      {
        var receiver := refs[i];
        assert refs[..i + 1][..i] == refs[..i];
        if receiver == ref {
          continue;
        }
        if receiver in players {
          events := events + [WorldEvent(ref, Snapshot(players[receiver]))];
        }
      }
      assert refs[..|refs|] == refs;
    }

    method Move(ref: SessionRef, x: int, y: int) returns (events: seq<WorldEvent>)
      requires Valid()
      modifies this
      ensures Valid()
      ensures Outcome(State(), events) == W.Move(old(State()), order, ref, x, y)
    {
      if ref !in players {
        return [WorldEvent(ref, NotInWorld)];
      }
      var player := players[ref];
      var oldSector := player.sector;
      var oldWatchers := WatchersAround(oldSector);
      var newSector := SectorFor(sectorSize, x, y);

      Relocate(ref, x, y);
      assert players[ref].sector == newSector;
      events := AnnounceMove(ref, oldWatchers);
    }

    // What `Move` does once the player has moved.
    method AnnounceMove(ref: SessionRef, oldWatchers: set<SessionRef>) returns (events: seq<WorldEvent>)
      requires ref in players
      modifies this`ticks
      ensures State() == old(State()).(ticks := old(ticks) + 1)
      ensures var newWatchers := W.WatchersAround(old(State()), players[ref].sector);
              events == Emit(order(old(ticks), oldWatchers + newWatchers),
                             MoveNotice(players[ref], oldWatchers, newWatchers))
    {
      var player := players[ref];
      var newWatchers := WatchersAround(player.sector);
      var recipients := oldWatchers + newWatchers;
      var refs := Iterate(recipients);
      events := NotifyMove(player, oldWatchers, newWatchers, refs);
    }

    // The player's own record and its bucket change together.
    method Relocate(ref: SessionRef, x: int, y: int)
      requires Valid() && ref in players
      modifies this`players, this`sectors
      ensures Valid()
      ensures State() == W.Relocated(old(State()), ref, x, y)
    {
      var player := players[ref];
      var oldSector, newSector := player.sector, SectorFor(sectorSize, x, y);
      if oldSector != newSector {
        EraseFromSector(ref, oldSector);
      }
      player := player.(x := x, y := y, sector := newSector);
      players := players[ref := player];
      if oldSector != newSector {
        InsertIntoSector(player);
      }
      W.MoveKeepsIndex(old(State()), ref, x, y);
    }

    // The loop of `Move`: each recipient learns what changed for it.
    method NotifyMove(
      player: PlayerState, oldWatchers: set<SessionRef>, newWatchers: set<SessionRef>, refs: seq<SessionRef>)
      returns (events: seq<WorldEvent>)
      ensures events == Emit(refs, MoveNotice(player, oldWatchers, newWatchers))
    {
      events := [];
      for i := 0 to |refs|
        invariant events == Emit(refs[..i], MoveNotice(player, oldWatchers, newWatchers))
      {
        var receiver := refs[i];
        assert refs[..i + 1][..i] == refs[..i];
        if receiver == player.ref {
          events := events + [WorldEvent(receiver, Moved(player))];
          continue;
        }
        var wasVisible := receiver in oldWatchers;
        var isVisible := receiver in newWatchers;
        if wasVisible && isVisible {
          events := events + [WorldEvent(receiver, MoveSeen(player))];
        } else if !wasVisible && isVisible {
          events := events + [WorldEvent(receiver, EnterSeen(player))];
        } else if wasVisible && !isVisible {
          events := events + [WorldEvent(receiver, Despawned(player, SectorOut))];
        }
      }
      assert refs[..|refs|] == refs;
    }

    method Attack(ref: SessionRef, skill: string, target: string) returns (events: seq<WorldEvent>)
      requires Valid()
      modifies this`ticks
      ensures Valid()
      ensures Outcome(State(), events) == W.Attack(old(State()), order, ref, skill, target)
    {
      if ref !in players {
        return [WorldEvent(ref, NotInWorld)];
      }
      var player := players[ref];
      var watchers := WatchersAround(player.sector);
      var refs := Iterate(watchers);
      events := [];
      for i := 0 to |refs|
        invariant events == Emit(refs[..i], AttackNotice(player, skill, target))
      {
        var receiver := refs[i];
        assert refs[..i + 1][..i] == refs[..i];
        if receiver == ref {
          events := events + [WorldEvent(receiver, Attacked(skill, target))];
        } else {
          events := events + [WorldEvent(receiver, AttackSeen(player, skill, target))];
        }
      }
      assert refs[..|refs|] == refs;
    }

    method Leave(ref: SessionRef) returns (events: seq<WorldEvent>, snapshot: PlayerSnapshot)
      requires Valid()
      modifies this
      ensures Valid()
      ensures Outcome(State(), events) == W.Leave(old(State()), order, ref)
      ensures snapshot == SnapshotOf(old(State()), ref)
    {
      if ref !in players {
        return [], PlayerSnapshot("", "", 0, 0);
      }
      var player := players[ref];
      snapshot := PlayerSnapshot(player.account, player.character, player.x, player.y);
      var watchers := WatchersAround(player.sector);
      EraseFromSector(ref, player.sector);
      players := players - {ref};
      W.LeaveKeepsIndex(old(State()), order, ref);

      var refs := Iterate(watchers);
      events := TellDeparture(player, refs);
    }

    // The loop of `Leave`: everybody who saw the player learns that it left.
    method TellDeparture(player: PlayerState, refs: seq<SessionRef>) returns (events: seq<WorldEvent>)
      ensures events == Emit(refs, LeaveNotice(player))
    {
      events := [];
      for i := 0 to |refs|
        invariant events == Emit(refs[..i], LeaveNotice(player))
      {
        var receiver := refs[i];
        assert refs[..i + 1][..i] == refs[..i];
        if receiver == player.ref {
          continue;
        }
        events := events + [WorldEvent(receiver, Despawned(player, Gone))];
      }
      assert refs[..|refs|] == refs;
    }
  }
}

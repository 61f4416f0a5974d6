/** Every command of the protocol from its text to its effect: what the client and everybody else is
    told, what becomes of the world, and what the job it submits does to the tables. */
module Commands {
  import opened Decimal
  import opened Geometry
  import W = World
  import opened World
  import opened Protocol
  import F = Framing
  import opened Server
  import opened ServerCore
  import opened ServerClosing
  import opened ServerLines
  import opened ServerPlaces
  import opened ServerViews
  import opened ServerRecv
  import opened ServerReplies
  import opened ServerInvariant
  import opened ServerHandlers
  import opened Tables
  import opened System
  import opened Runs

  // A line of words whose first, in any mixture of cases, is the command.
  function LineOf(word: string, args: seq<string>): string {
    Join([word] + args)
  }

  lemma Spelled(ref: SessionRef, word: string, r: Request, id: nat)
    requires ValidRequest(r) && SameLetters(word, r.name)
    ensures var line := LineOf(word, r.args);
            && LineOp(ref, line) == RequestOp(ref, r) && AskedBy(line) == DemandOf(r)
            && ReplyTo(line, id) == ReplyToCommand(r.name, id)
  {
    AnyCaseWillDo(word, r);
    LineCallsFor(ref, LineOf(word, r.args), r, id);
    LineAsks(LineOf(word, r.args), r);
  }

  // ---------- The world ----------

  // A line that asks the world for `op` and nothing of the database.
  ghost predicate AsksFor(line: string, ref: SessionRef, op: Op) {
    LineOp(ref, line) == Some(op) && AskedBy(line) == None
  }

  // What such a line tells, does and saves.
  lemma OpLine(cfg: Config, s: ServerState, ref: SessionRef, line: string, op: Op, own: seq<Reply>, q: SessionRef)
    requires Core(cfg, s) && IsLive(s, ref) && !s.terminated && q in s.hist
    requires AsksFor(line, ref, op) && ReplyTo(line, s.nextRequestId) == own
    ensures var r := HandleLine(cfg, s, ref, line);
            && Queued(s, r, q, AsReplies(Tells(s.world, cfg.order, Some(op), IsLive(s, q), q)) +
                               if q == ref then own else [])
            && r.world == W.Apply(s.world, cfg.order, op).world
            && Submits(s, r, JobsFor(s.world, s.nextRequestId, ref, Some(op), None))
  {
    LineIsAnswered(cfg, s, ref, line, q);
    LineSubmits(cfg, s, ref, line);
    HandleEffect(cfg, s, ref, line);
  }

  // The same when the server has no reply of its own.
  lemma SilentOpLine(cfg: Config, s: ServerState, ref: SessionRef, line: string, op: Op, q: SessionRef)
    requires Core(cfg, s) && IsLive(s, ref) && !s.terminated && q in s.hist
    requires AsksFor(line, ref, op) && ReplyTo(line, s.nextRequestId) == []
    ensures var r := HandleLine(cfg, s, ref, line);
            && Queued(s, r, q, AsReplies(Tells(s.world, cfg.order, Some(op), IsLive(s, q), q)))
            && r.world == W.Apply(s.world, cfg.order, op).world
            && Submits(s, r, JobsFor(s.world, s.nextRequestId, ref, Some(op), None))
  {
    OpLine(cfg, s, ref, line, op, [], q);
    NothingAdded(AsReplies(Tells(s.world, cfg.order, Some(op), IsLive(s, q), q)));
  }

  lemma AttackText(ref: SessionRef, word: string, skill: string, target: string, id: nat)
    requires SameLetters(word, "ATTACK") && IsWord(skill) && IsWord(target)
    ensures var line := LineOf(word, [skill, target]);
            AsksFor(line, ref, DoAttack(ref, skill, target)) && ReplyTo(line, id) == []
  {
    AttackRequestIsValid(skill, target);
    Spelled(ref, word, AttackRequest(skill, target), id);
    AttackOp(ref, skill, target);
  }

  function AttackRequest(skill: string, target: string): Request {
    Request(AttackTarget, "ATTACK", [skill, target])
  }

  lemma AttackRequestIsValid(skill: string, target: string)
    requires IsWord(skill) && IsWord(target)
    ensures ValidRequest(AttackRequest(skill, target))
  {
  }

  lemma AttackOp(ref: SessionRef, skill: string, target: string)
    requires ValidRequest(AttackRequest(skill, target))
    ensures RequestOp(ref, AttackRequest(skill, target)) == Some(DoAttack(ref, skill, target))
  {
  }

  // What an attack tells someone.
  function AttackTold(w: WorldState, ref: SessionRef, skill: string, target: string, q: SessionRef): seq<WorldLine> {
    if ref !in w.players then if q == ref then [NotInWorld] else []
    else if q == ref then [Attacked(skill, target)]
    else if Sees(w, q, ref) then [AttackSeen(w.players[ref], skill, target)]
    else []
  }

  lemma AttackTells(
    w: WorldState, order: Order, ref: SessionRef, skill: string, target: string, live: bool, q: SessionRef)
    requires IndexValid(w) && ValidOrder(order) && (q in w.players || q == ref ==> live)
    ensures Tells(w, order, Some(DoAttack(ref, skill, target)), live, q) == AttackTold(w, ref, skill, target, q)
    ensures W.Apply(w, order, DoAttack(ref, skill, target)).world.players == w.players
  {
    if ref !in w.players {
      AbsentAreTold(w, order, ref, DoAttack(ref, skill, target), q);
    } else {
      AttackNotifies(w, order, ref, skill, target, q);
    }
    if q !in w.players && q != ref {
      StrangersNotTold(w, order, DoAttack(ref, skill, target), q);
    }
  }

  /** An ATTACK line tells the attacker of the attack, with skill and target as the line has them, and
      everybody who sees it; whoever is nowhere is told that.  Nobody is told anything else, nobody
      moves, and nothing is submitted. */
  lemma AttackLine(
    cfg: Config, s: ServerState, ref: SessionRef, word: string, skill: string, target: string, q: SessionRef)
    requires Handling(cfg, s, ref) && !s.terminated && ValidOrder(cfg.order) && q in s.hist
    requires SameLetters(word, "ATTACK") && IsWord(skill) && IsWord(target)
    ensures var r := HandleLine(cfg, s, ref, LineOf(word, [skill, target]));
            && Queued(s, r, q, AsReplies(AttackTold(s.world, ref, skill, target, q)))
            && r.world.players == s.world.players && r.jobs == s.jobs
  {
    AttackText(ref, word, skill, target, s.nextRequestId);
    SilentOpLine(cfg, s, ref, LineOf(word, [skill, target]), DoAttack(ref, skill, target), q);
    AttackTells(s.world, cfg.order, ref, skill, target, IsLive(s, q), q);
  }

  lemma MoveText(ref: SessionRef, word: string, x: int, y: int, id: nat)
    requires SameLetters(word, "MOVE") && FitsInt(x) && FitsInt(y)
    ensures var line := LineOf(word, [ToString(x), ToString(y)]);
            AsksFor(line, ref, DoMove(ref, x, y)) && ReplyTo(line, id) == []
  {
    MoveRequestIsValid(x, y);
    Spelled(ref, word, MoveRequest(x, y), id);
    MoveOp(ref, x, y);
  }

  lemma MoveRequestIsValid(x: int, y: int)
    ensures ValidRequest(MoveRequest(x, y))
  {
    MoveIsValid(x, y);
  }

  lemma MoveOp(ref: SessionRef, x: int, y: int)
    requires ValidRequest(MoveRequest(x, y)) && FitsInt(x) && FitsInt(y)
    ensures RequestOp(ref, MoveRequest(x, y)) == Some(DoMove(ref, x, y))
  {
    RoundTrip(x);
    RoundTrip(y);
  }

  // The players after one of them moved.
  function PlayersMoved(w: WorldState, ref: SessionRef, x: int, y: int): map<SessionRef, PlayerState> {
    if ref !in w.players then w.players
    else w.players[ref := w.players[ref].(x := x, y := y, sector := SectorFor(w.size, x, y))]
  }

  // What a move tells someone.
  function MoveTold(w: WorldState, ref: SessionRef, x: int, y: int, q: SessionRef): seq<WorldLine> {
    if ref !in w.players then if q == ref then [NotInWorld] else []
    else
      var w1 := w.(players := PlayersMoved(w, ref, x, y));
      if q == ref then [Moved(w1.players[ref])] else MoveLine(w1.players[ref], Sees(w, q, ref), Sees(w1, q, ref))
  }

  lemma MoveTells(w: WorldState, order: Order, ref: SessionRef, x: int, y: int, live: bool, q: SessionRef)
    requires IndexValid(w) && ValidOrder(order) && (q in w.players || q == ref ==> live)
    ensures Tells(w, order, Some(DoMove(ref, x, y)), live, q) == MoveTold(w, ref, x, y, q)
    ensures W.Apply(w, order, DoMove(ref, x, y)).world.players == PlayersMoved(w, ref, x, y)
  {
    if ref !in w.players {
      AbsentAreTold(w, order, ref, DoMove(ref, x, y), q);
    } else {
      MoveNotifies(w, order, ref, x, y, q);
    }
  }

  /** A MOVE line puts the player where the line says, tells it so, and tells everybody else the one line
      that its view before and after calls for; whoever is nowhere is told that, and stays nowhere.
      Nothing is submitted. */
  lemma MoveLineMoves(cfg: Config, s: ServerState, ref: SessionRef, word: string, x: int, y: int, q: SessionRef)
    requires Handling(cfg, s, ref) && !s.terminated && ValidOrder(cfg.order) && q in s.hist
    requires SameLetters(word, "MOVE") && FitsInt(x) && FitsInt(y)
    ensures var r := HandleLine(cfg, s, ref, LineOf(word, [ToString(x), ToString(y)]));
            && Queued(s, r, q, AsReplies(MoveTold(s.world, ref, x, y, q)))
            && r.world.players == PlayersMoved(s.world, ref, x, y) && r.jobs == s.jobs
  {
    MoveText(ref, word, x, y, s.nextRequestId);
    SilentOpLine(cfg, s, ref, LineOf(word, [ToString(x), ToString(y)]), DoMove(ref, x, y), q);
    MoveTells(s.world, cfg.order, ref, x, y, IsLive(s, q), q);
  }

  lemma EnterText(ref: SessionRef, word: string, p: Place, id: nat)
    requires SameLetters(word, "ENTER") && IsWord(p.account) && IsWord(p.character) && FitsInt(p.x) && FitsInt(p.y)
    ensures var line := LineOf(word, [p.account, p.character, ToString(p.x), ToString(p.y)]);
            && AsksFor(line, ref, DoEnter(ref, p.account, p.character, p.x, p.y)) && ReplyTo(line, id) == []
  {
    EnterRequestIsValid(p);
    Spelled(ref, word, EnterRequest(p), id);
    EnterOp(ref, p);
  }

  lemma EnterRequestIsValid(p: Place)
    requires IsWord(p.account) && IsWord(p.character)
    ensures ValidRequest(EnterRequest(p))
  {
    EnterIsValid(p);
  }

  lemma EnterOp(ref: SessionRef, p: Place)
    requires ValidRequest(EnterRequest(p)) && FitsInt(p.x) && FitsInt(p.y)
    ensures RequestOp(ref, EnterRequest(p)) == Some(DoEnter(ref, p.account, p.character, p.x, p.y))
  {
    RoundTrip(p.x);
    RoundTrip(p.y);
  }

  // A player that enters.
  function Entrant(w: WorldState, ref: SessionRef, p: Place): PlayerState {
    PlayerState(ref, p.account, p.character, p.x, p.y, SectorFor(w.size, p.x, p.y))
  }

  // What an entry tells someone: of the place the player leaves, and of the one it enters; the entrant is
  // shown those around it in some order.
  ghost predicate EnterTold(w: WorldState, ref: SessionRef, p: Place, q: SessionRef, lines: seq<WorldLine>) {
    var player := Entrant(w, ref, p);
    var w1 := w.(players := w.players[ref := player]);
    if q == ref then
      exists refs :: Enumerates(refs, PlayersAround(w1, player.sector)) &&
                     lines == [Entered(player)] + Snapshots(w1.players, ref, refs)
    else
      lines == (if Sees(w, q, ref) then [Despawned(w.players[ref], Gone)] else []) +
               (if Sees(w1, q, ref) then [EnterSeen(player)] else [])
  }

  lemma EnterTells(w: WorldState, order: Order, ref: SessionRef, p: Place, live: bool, q: SessionRef)
    requires IndexValid(w) && ValidOrder(order) && (q in w.players || q == ref ==> live)
    ensures var op := DoEnter(ref, p.account, p.character, p.x, p.y);
            && EnterTold(w, ref, p, q, Tells(w, order, Some(op), live, q))
            && W.Apply(w, order, op).world.players == w.players[ref := Entrant(w, ref, p)]
  {
    var left := W.Leave(w, order, ref);
    LeaveKeepsIndex(w, order, ref);
    if ref in w.players {
      LeaveNotifies(w, order, ref, q);
    }
    ArrivalTells(w, left.world, order, ref, p, q);
    LinesForConcat(left.events, W.Arrive(left.world, order, Entrant(w, ref, p)).events, q);
    if !live {
      StrangersNotTold(w, order, DoEnter(ref, p.account, p.character, p.x, p.y), q);
    }
  }

  // The second half: the player's previous incarnation, if any, has left.
  lemma ArrivalTells(w: WorldState, left: WorldState, order: Order, ref: SessionRef, p: Place, q: SessionRef)
    requires IndexValid(left) && ValidOrder(order)
    requires left.players == w.players - {ref} && left.size == w.size && left.radius == w.radius
    ensures var player := Entrant(w, ref, p);
            var a, w1 := W.Arrive(left, order, player), w.(players := w.players[ref := player]);
            && a.world.players == w1.players
            && if q == ref then
                 exists refs :: Enumerates(refs, PlayersAround(w1, player.sector)) &&
                                LinesFor(a.events, q) == [Entered(player)] + Snapshots(w1.players, ref, refs)
               else LinesFor(a.events, q) == if Sees(w1, q, ref) then [EnterSeen(player)] else []
  {
    var player := Entrant(w, ref, p);
    var a, w1 := W.Arrive(left, order, player), w.(players := w.players[ref := player]);
    ArriveNotifies(left, order, player, q);
    assert a.world.players == w1.players;
    assert PlayersAround(a.world, player.sector) == PlayersAround(w1, player.sector);
    assert Enumerates(order(left.ticks, PlayersAround(w1, player.sector)), PlayersAround(w1, player.sector));
  }

  /** An ENTER line puts its player at the line's account, character and coordinates, shows it everybody
      around, tells those who saw its previous incarnation that this is gone and those around the new
      place that it came, and submits the save of the place as a silent job. */
  lemma EnterLineEnters(cfg: Config, s: ServerState, ref: SessionRef, word: string, p: Place, q: SessionRef)
    requires Handling(cfg, s, ref) && !s.terminated && ValidOrder(cfg.order) && q in s.hist
    requires SameLetters(word, "ENTER") && IsWord(p.account) && IsWord(p.character) && FitsInt(p.x) && FitsInt(p.y)
    ensures var r := HandleLine(cfg, s, ref, LineOf(word, [p.account, p.character, ToString(p.x), ToString(p.y)]));
            && (exists lines :: EnterTold(s.world, ref, p, q, lines) && Queued(s, r, q, AsReplies(lines)))
            && r.world.players == s.world.players[ref := Entrant(s.world, ref, p)]
            && r.jobs == s.jobs + [SaveJob(ref, s.nextRequestId, p)]
  {
    var line := LineOf(word, [p.account, p.character, ToString(p.x), ToString(p.y)]);
    EnterText(ref, word, p, s.nextRequestId);
    SilentOpLine(cfg, s, ref, line, DoEnter(ref, p.account, p.character, p.x, p.y), q);
    EnterTells(s.world, cfg.order, ref, p, IsLive(s, q), q);
    EnterJobs(s.world, s.nextRequestId, ref, p);
  }

  lemma EnterJobs(w: WorldState, id: nat, ref: SessionRef, p: Place)
    ensures JobsFor(w, id, ref, Some(DoEnter(ref, p.account, p.character, p.x, p.y)), None) == [SaveJob(ref, id, p)]
  {
  }

  lemma QuitText(ref: SessionRef, word: string, id: nat)
    requires SameLetters(word, "QUIT")
    ensures AsksFor(LineOf(word, []), ref, DoLeave(ref)) && ReplyTo(LineOf(word, []), id) == [Bye]
    ensures IsQuit(LineOf(word, []))
  {
    Spelled(ref, word, Request(Quit, "QUIT", []), id);
    AnyCaseWillDo(word, Request(Quit, "QUIT", []));
  }

  // What a departure tells someone.
  function LeaveTold(w: WorldState, ref: SessionRef, q: SessionRef): seq<WorldLine> {
    if q != ref && Sees(w, q, ref) then [Despawned(w.players[ref], Gone)] else []
  }

  lemma QuitTells(w: WorldState, order: Order, ref: SessionRef, live: bool, q: SessionRef)
    requires IndexValid(w) && ValidOrder(order) && (q in w.players || q == ref ==> live)
    ensures Tells(w, order, Some(DoLeave(ref)), live, q) == LeaveTold(w, ref, q)
    ensures W.Apply(w, order, DoLeave(ref)).world.players == w.players - {ref}
  {
    LeaveTells(w, order, ref, live, q);
    if ref in w.players {
      LeaveNotifies(w, order, ref, q);
    }
  }

  /** A QUIT line takes its player out of the world, tells those who saw it, answers BYE, submits the save
      of the place left, if the client was anywhere, and lets the connection close. */
  lemma QuitLineLeaves(cfg: Config, s: ServerState, ref: SessionRef, word: string, q: SessionRef)
    requires Handling(cfg, s, ref) && !s.terminated && ValidOrder(cfg.order) && q in s.hist
    requires SameLetters(word, "QUIT")
    ensures var r, here := HandleLine(cfg, s, ref, LineOf(word, [])), PlaceIn(s.world, ref);
            && Queued(s, r, q, if q == ref then [Bye] else AsReplies(LeaveTold(s.world, ref, q)))
            && r.world.players == s.world.players - {ref}
            && r.jobs == s.jobs + (if here.Some? then [SaveJob(ref, s.nextRequestId, here.value)] else [])
            && IsLive(r, ref) && r.sessions[ref.fd].closeAfterFlush
  {
    QuitText(ref, word, s.nextRequestId);
    OpLine(cfg, s, ref, LineOf(word, []), DoLeave(ref), [Bye], q);
    QuitTells(s.world, cfg.order, ref, IsLive(s, q), q);
    QuitCloses(cfg, s, ref, word);
    LeaveJobs(s.world, s.nextRequestId, ref);
    NothingElse(AsReplies(LeaveTold(s.world, ref, q)), [Bye]);
  }

  lemma QuitCloses(cfg: Config, s: ServerState, ref: SessionRef, word: string)
    requires Handling(cfg, s, ref) && !s.terminated && ValidOrder(cfg.order) && SameLetters(word, "QUIT")
    ensures var r := HandleLine(cfg, s, ref, LineOf(word, []));
            IsLive(r, ref) && r.sessions[ref.fd].closeAfterFlush
  {
    QuitText(ref, word, 0);
    HandleLineAround(cfg, s, ref, LineOf(word, []));
  }

  lemma LeaveJobs(w: WorldState, id: nat, ref: SessionRef)
    requires AccountsNamed(w)
    ensures JobsFor(w, id, ref, Some(DoLeave(ref)), None) ==
            if ref in w.players then [SaveJob(ref, id, PlaceIn(w, ref).value)] else []
  {
  }

  lemma NothingElse<T>(a: seq<T>, b: seq<T>)
    ensures a + [] == a && [] + b == b
  {
  }

  // ---------- The database ----------

  // What a request to the database tells and submits.
  lemma DatabaseLine(cfg: Config, s: ServerState, ref: SessionRef, line: string, d: Demand, q: SessionRef)
    requires Core(cfg, s) && IsLive(s, ref) && !s.terminated && q in s.hist
    requires AskedBy(line) == Some(d) && LineOp(ref, line) == None
    requires ReplyTo(line, s.nextRequestId) == [Pending(s.nextRequestId, d.name)]
    ensures var r := HandleLine(cfg, s, ref, line);
            && Queued(s, r, q, if q == ref then [Pending(s.nextRequestId, d.name)] else [])
            && r.jobs == s.jobs + [DbJob(Ticket(ref, s.nextRequestId, true), d.operation, d.name, d.args)]
            && r.world == s.world
  {
    LineIsAnswered(cfg, s, ref, line, q);
    LineSubmits(cfg, s, ref, line);
    HandleEffect(cfg, s, ref, line);
    CallsForNothing(s.world, cfg.order, IsLive(s, q), q, if q == ref then ReplyTo(line, s.nextRequestId) else []);
  }

  /** A line that spells a request to the database is announced to its client under the next id, nobody is
      told anything else, the world stays as it is, and one job is submitted under that id, to be answered,
      with the operation and the words of the request. */
  lemma RequestLine(
    cfg: Config, s: ServerState, ref: SessionRef, word: string, r: Request, operation: DbOperation, q: SessionRef)
    requires Core(cfg, s) && IsLive(s, ref) && !s.terminated && q in s.hist
    requires ValidRequest(r) && SameLetters(word, r.name) && OperationFor(r.command) == Some(operation)
    ensures Requested(s, HandleLine(cfg, s, ref, LineOf(word, r.args)), ref, r.name, operation, r.args, q)
  {
    Spelled(ref, word, r, s.nextRequestId);
    OperationFits(r);
    WorldOrDatabase(ref, r);
    DatabaseLine(cfg, s, ref, LineOf(word, r.args), DemandOf(r).value, q);
  }

  function NewJob(s: ServerState, ref: SessionRef, name: string, operation: DbOperation, args: seq<string>): DbJob {
    DbJob(Ticket(ref, s.nextRequestId, true), operation, name, args)
  }

  ghost predicate Requested(
    s: ServerState, r: ServerState, ref: SessionRef, name: string, operation: DbOperation, args: seq<string>,
    q: SessionRef)
  {
    && Queued(s, r, q, if q == ref then [Pending(s.nextRequestId, name)] else [])
    && r.jobs == s.jobs + [NewJob(s, ref, name, operation, args)]
    && r.world == s.world
  }

  lemma NumberedWord(n: nat)
    ensures IsWord(NatToString(n)) && IsUnsignedNumber(NatToString(n)) && UnsignedValue(NatToString(n)) == n
  {
    NatRoundTrip(n);
  }

  lemma SaveIsValid(account: string, character: string, level: string, gold: string)
    requires IsWord(account) && IsWord(character) && IsWord(level) && IsWord(gold)
    requires IsUnsignedNumber(level) && IsUnsignedNumber(gold)
    ensures ValidRequest(Request(SaveCharacter, "SAVE", [account, character, level, gold]))
  {
    SaveNumbers([account, character, level, gold]);
  }

  lemma ItemIsValid(account: string, slot: string, id: string, count: string)
    requires IsWord(account) && IsWord(slot) && IsWord(id) && IsWord(count)
    requires IsUnsignedNumber(slot) && IsUnsignedNumber(id) && IsUnsignedNumber(count)
    ensures ValidRequest(Request(SaveInventoryItem, "SAVE_ITEM", [account, slot, id, count]))
  {
    ItemNumbers([account, slot, id, count]);
  }

  lemma SaveIsRequested(
    cfg: Config, s: ServerState, ref: SessionRef, word: string, account: string, character: string, level: string,
    gold: string, q: SessionRef)
    requires Core(cfg, s) && IsLive(s, ref) && !s.terminated && q in s.hist && SameLetters(word, "SAVE")
    requires IsWord(account) && IsWord(character) && IsWord(level) && IsWord(gold)
    requires IsUnsignedNumber(level) && IsUnsignedNumber(gold)
    ensures var args := [account, character, level, gold];
            Requested(s, HandleLine(cfg, s, ref, LineOf(word, args)), ref, "SAVE", SaveCharacterRow, args, q)
  {
    SaveIsValid(account, character, level, gold);
    var r := Request(SaveCharacter, "SAVE", [account, character, level, gold]);
    RequestLine(cfg, s, ref, word, r, SaveCharacterRow, q);
  }

  lemma ItemIsRequested(
    cfg: Config, s: ServerState, ref: SessionRef, word: string, account: string, slot: string, id: string,
    count: string, q: SessionRef)
    requires Core(cfg, s) && IsLive(s, ref) && !s.terminated && q in s.hist && SameLetters(word, "SAVE_ITEM")
    requires IsWord(account) && IsWord(slot) && IsWord(id) && IsWord(count)
    requires IsUnsignedNumber(slot) && IsUnsignedNumber(id) && IsUnsignedNumber(count)
    ensures var args := [account, slot, id, count];
            Requested(s, HandleLine(cfg, s, ref, LineOf(word, args)), ref, "SAVE_ITEM", SaveInventoryRow, args, q)
  {
    ItemIsValid(account, slot, id, count);
    var r := Request(SaveInventoryItem, "SAVE_ITEM", [account, slot, id, count]);
    RequestLine(cfg, s, ref, word, r, SaveInventoryRow, q);
  }

  lemma ReadingIsRequested(
    cfg: Config, s: ServerState, ref: SessionRef, word: string, c: Command, name: string, operation: DbOperation,
    account: string, q: SessionRef)
    requires Core(cfg, s) && IsLive(s, ref) && !s.terminated && q in s.hist
    requires c in {Login, LoadCharacters, LoadInventory} && name == NameOf(c) && OperationFor(c) == Some(operation)
    requires SameLetters(word, name) && IsWord(account)
    ensures Requested(s, HandleLine(cfg, s, ref, LineOf(word, [account])), ref, name, operation, [account], q)
  {
    ReadingIsValid(c, account);
    RequestLine(cfg, s, ref, word, Request(c, name, [account]), operation, q);
  }

  lemma ReadingIsValid(c: Command, account: string)
    requires c in {Login, LoadCharacters, LoadInventory} && IsWord(account)
    ensures ValidRequest(Request(c, NameOf(c), [account]))
  {
    assert NumbersOk(c, [account]);
  }

  /** The line SAVE a c l g submits a job that can be committed iff the account is registered and both
      numbers fit 64 bits; the row of a's c then has the level l, cut to 32 bits, and the gold g, and stands
      where it stood, or at 0 0 if it is new; nothing else in the tables changes. */
  lemma SaveLineSaves(
    cfg: Config, s: ServerState, ref: SessionRef, word: string, account: string, character: string,
    level: nat, gold: nat, t: Database, q: SessionRef)
    requires Core(cfg, s) && IsLive(s, ref) && !s.terminated && q in s.hist && DatabaseValid(t)
    requires SameLetters(word, "SAVE") && IsWord(account) && IsWord(character)
    ensures var args := [account, character, NatToString(level), NatToString(gold)];
            var job, row := NewJob(s, ref, "SAVE", SaveCharacterRow, args), RowOf(t, account, character);
            && Requested(s, HandleLine(cfg, s, ref, LineOf(word, args)), ref, "SAVE", SaveCharacterRow, args, q)
            && (Commit(t, job).Some? <==>
                  account in t.players && level < 0x1_0000_0000_0000_0000 && gold < 0x1_0000_0000_0000_0000)
            && (Commit(t, job).Some? ==>
                  var t1 := Commit(t, job).value;
                  && RowOf(t1, account, character) ==
                     Some(Row(level % 0x1_0000_0000, gold,
                              if row.Some? then row.value.x else 0, if row.Some? then row.value.y else 0))
                  && t1.players == t.players && t1.inventory == t.inventory
                  && OtherRowsStay(t, t1, account, character))
  {
    var args := [account, character, NatToString(level), NatToString(gold)];
    NumberedWord(level);
    NumberedWord(gold);
    SaveIsRequested(cfg, s, ref, word, account, character, args[2], args[3], q);
    SaveWrites(t, NewJob(s, ref, "SAVE", SaveCharacterRow, args), account, character, args[2], args[3]);
  }

  /** The line SAVE_ITEM a n i k submits a job that can be committed iff the account is registered and the
      numbers fit 64 bits; slot n of a then holds k of item i, or nothing if k is zero, n and k cut to 32
      bits; nothing else changes. */
  lemma ItemLineStores(
    cfg: Config, s: ServerState, ref: SessionRef, word: string, account: string, slot: nat, id: nat, count: nat,
    t: Database, q: SessionRef)
    requires Core(cfg, s) && IsLive(s, ref) && !s.terminated && q in s.hist && DatabaseValid(t)
    requires SameLetters(word, "SAVE_ITEM") && IsWord(account)
    ensures var args := [account, NatToString(slot), NatToString(id), NatToString(count)];
            var job := NewJob(s, ref, "SAVE_ITEM", SaveInventoryRow, args);
            && Requested(s, HandleLine(cfg, s, ref, LineOf(word, args)), ref, "SAVE_ITEM", SaveInventoryRow, args, q)
            && (Commit(t, job).Some? <==>
                  account in t.players && slot < 0x1_0000_0000_0000_0000 && id < 0x1_0000_0000_0000_0000 &&
                  count < 0x1_0000_0000_0000_0000)
            && (Commit(t, job).Some? ==>
                  var t1, n, left := Commit(t, job).value, slot % 0x1_0000_0000, count % 0x1_0000_0000;
                  && ItemOf(t1, account, n) == (if left == 0 then None else Some(Item(id, left)))
                  && t1.players == t.players && t1.characters == t.characters
                  && OtherSlotsStay(t, t1, account, n))
  {
    var args := [account, NatToString(slot), NatToString(id), NatToString(count)];
    NumberedWord(slot);
    NumberedWord(id);
    NumberedWord(count);
    ItemIsRequested(cfg, s, ref, word, account, args[1], args[2], args[3], q);
    ItemWrites(t, NewJob(s, ref, "SAVE_ITEM", SaveInventoryRow, args), account, args[1], args[2], args[3]);
  }

  lemma RegisterIsValid(account: string, display: string)
    requires IsWord(account) && IsWord(display)
    ensures ValidRequest(Request(Register, "REGISTER", [account, display]))
  {
  }

  lemma RegisterIsRequested(
    cfg: Config, s: ServerState, ref: SessionRef, word: string, account: string, display: string, q: SessionRef)
    requires Core(cfg, s) && IsLive(s, ref) && !s.terminated && q in s.hist
    requires SameLetters(word, "REGISTER") && IsWord(account) && IsWord(display)
    ensures var args := [account, display];
            Requested(s, HandleLine(cfg, s, ref, LineOf(word, args)), ref, "REGISTER", RegisterPlayer, args, q)
  {
    var r := Request(Register, "REGISTER", [account, display]);
    RegisterIsValid(account, display);
    RequestLine(cfg, s, ref, word, r, RegisterPlayer, q);
  }

  /** The line REGISTER a d submits a job that can be committed iff the account is not registered; it then
      is, with no character and no item, and nothing else changes. */
  lemma RegisterLineRegisters(
    cfg: Config, s: ServerState, ref: SessionRef, word: string, account: string, display: string,
    t: Database, q: SessionRef)
    requires Core(cfg, s) && IsLive(s, ref) && !s.terminated && q in s.hist && DatabaseValid(t)
    requires SameLetters(word, "REGISTER") && IsWord(account) && IsWord(display)
    ensures var args := [account, display];
            var job := NewJob(s, ref, "REGISTER", RegisterPlayer, args);
            && Requested(s, HandleLine(cfg, s, ref, LineOf(word, args)), ref, "REGISTER", RegisterPlayer, args, q)
            && (Commit(t, job).Some? <==> account !in t.players)
            && (Commit(t, job).Some? ==>
                  var t1 := Commit(t, job).value;
                  && t1.players.Keys == t.players.Keys + {account}
                  && (forall a, c :: RowOf(t1, a, c) == RowOf(t, a, c))
                  && (forall a, n :: ItemOf(t1, a, n) == ItemOf(t, a, n))
                  && (forall c :: RowOf(t1, account, c) == None) && (forall n :: ItemOf(t1, account, n) == None))
  {
    var args := [account, display];
    RegisterIsRequested(cfg, s, ref, word, account, display, q);
    RegisterAdds(t, NewJob(s, ref, "REGISTER", RegisterPlayer, args), account);
  }

  /** The lines LOGIN a, LOAD a and LOAD_INVENTORY a submit a login, a load of characters and a load of the
      inventory; each can be committed iff the account is registered, and leaves the tables as they are. */
  lemma LoginLineReads(
    cfg: Config, s: ServerState, ref: SessionRef, word: string, account: string, t: Database, q: SessionRef)
    requires Core(cfg, s) && IsLive(s, ref) && !s.terminated && q in s.hist
    requires SameLetters(word, "LOGIN") && IsWord(account)
    ensures var job := NewJob(s, ref, "LOGIN", LoginPlayer, [account]);
            && Requested(s, HandleLine(cfg, s, ref, LineOf(word, [account])), ref, "LOGIN", LoginPlayer, [account], q)
            && Commit(t, job) == if account in t.players then Some(t) else None
  {
    ReadingIsRequested(cfg, s, ref, word, Login, "LOGIN", LoginPlayer, account, q);
    ReadersChangeNothing(t, NewJob(s, ref, "LOGIN", LoginPlayer, [account]), account);
  }

  // So LOAD.
  lemma LoadLineReads(
    cfg: Config, s: ServerState, ref: SessionRef, word: string, account: string, t: Database, q: SessionRef)
    requires Core(cfg, s) && IsLive(s, ref) && !s.terminated && q in s.hist
    requires SameLetters(word, "LOAD") && IsWord(account)
    ensures var job := NewJob(s, ref, "LOAD", LoadCharacterRows, [account]);
            && Requested(s, HandleLine(cfg, s, ref, LineOf(word, [account])), ref, "LOAD", LoadCharacterRows,
                         [account], q)
            && Commit(t, job) == if account in t.players then Some(t) else None
  {
    ReadingIsRequested(cfg, s, ref, word, LoadCharacters, "LOAD", LoadCharacterRows, account, q);
    ReadersChangeNothing(t, NewJob(s, ref, "LOAD", LoadCharacterRows, [account]), account);
  }

  // So LOAD_INVENTORY.
  lemma LoadInventoryLineReads(
    cfg: Config, s: ServerState, ref: SessionRef, word: string, account: string, t: Database, q: SessionRef)
    requires Core(cfg, s) && IsLive(s, ref) && !s.terminated && q in s.hist
    requires SameLetters(word, "LOAD_INVENTORY") && IsWord(account)
    ensures var job := NewJob(s, ref, "LOAD_INVENTORY", LoadInventoryRows, [account]);
            && Requested(s, HandleLine(cfg, s, ref, LineOf(word, [account])), ref, "LOAD_INVENTORY",
                         LoadInventoryRows, [account], q)
            && Commit(t, job) == if account in t.players then Some(t) else None
  {
    ReadingIsRequested(cfg, s, ref, word, LoadInventory, "LOAD_INVENTORY", LoadInventoryRows, account, q);
    ReadersChangeNothing(t, NewJob(s, ref, "LOAD_INVENTORY", LoadInventoryRows, [account]), account);
  }

  // ---------- In a run ----------

  // A client that is about to send a line of its own: nothing is buffered, and the server still reads.
  predicate Listening(s: SystemState, ref: SessionRef) {
    && s.phase == Waiting && IsLive(s.server, ref)
    && s.server.sessions[ref.fd].input == "" && !s.server.sessions[ref.fd].closeAfterFlush
  }

  // The state in which the line is handled once its chunk has arrived.
  function AtLine(s: ServerState, ref: SessionRef, line: string): ServerState
    requires IsLive(s, ref) && s.sessions[ref.fd].input == ""
  {
    CutLine(Append(Consume(s, RecvToken(ref)), ref, line + "\n"), ref, |line|)
  }

  lemma ReadyForLine(cfg: Config, s: ServerState, ref: SessionRef, line: string)
    requires Inv(cfg, s) && RecvToken(ref) in s.tokens && IsLive(s, ref) && s.sessions[ref.fd].input == ""
    ensures Handling(cfg, AtLine(s, ref, line), ref) && !AtLine(s, ref, line).terminated
    ensures var s1 := Append(Consume(s, RecvToken(ref)), ref, line + "\n");
            Handling(cfg, s1, ref) && s1.sessions[ref.fd].input == line + "\n"
            && !s1.sessions[ref.fd].closeAfterFlush
  {
    var s0 := Consume(s, RecvToken(ref));
    var s1 := Append(s0, ref, line + "\n");
    ConsumeRecv(cfg, s, ref);
    OpenIsPrefix(cfg, s0, ref);
    AppendKeeps(cfg, s0, ref, line + "\n");
    CutLineKeeps(cfg, s1, ref, |line|);
  }

  lemma FirstLineHandled(cfg: Config, s: ServerState, ref: SessionRef, line: string)
    requires Handling(cfg, s, ref) && !s.terminated && ValidOrder(cfg.order) && !s.sessions[ref.fd].closeAfterFlush
    requires s.sessions[ref.fd].input == line + "\n" && '\n' !in line
    ensures var r := HandleLine(cfg, CutLine(s, ref, |line|), ref, line);
            && ProcessLines(cfg, s, ref) == r && Core(cfg, r) && IsLive(r, ref) && r.sessions[ref.fd].input == ""
  {
    OneLine(line);
    NextLineAround(cfg, s, ref, |line|);
    NoMoreLines(cfg, NextLine(cfg, s, ref, |line|), ref);
  }

  lemma OneLine(line: string)
    requires '\n' !in line
    ensures F.FindNewline(line + "\n") == Some(|line|)
    ensures (line + "\n")[..|line|] == line && (line + "\n")[|line| + 1..] == ""
  {
    F.FirstNewlineUnique(line + "\n", |line|);
  }

  lemma NoMoreLines(cfg: Config, s: ServerState, ref: SessionRef)
    requires SessionMatches(s, ref) && s.sessions[ref.fd].input == ""
    ensures ProcessLines(cfg, s, ref) == s
  {
    assert F.FindNewline("") == None;
  }

  lemma NothingLeftOver(cfg: Config, s: ServerState, ref: SessionRef)
    requires Core(cfg, s) && IsLive(s, ref) && s.sessions[ref.fd].input == ""
    ensures var r := FinishRecv(cfg, s, ref);
            r.world == s.world && r.jobs == s.jobs && r.nextRequestId == s.nextRequestId && r.hist == s.hist
  {
    NothingToFlush(cfg, s, ref.fd);
  }

  lemma SameAtLine(cfg: Config, s: ServerState, ref: SessionRef, line: string)
    requires IsLive(s, ref) && s.sessions[ref.fd].input == "" && ref in s.hist
    ensures var h := AtLine(s, ref, line);
            && h.world == s.world && h.jobs == s.jobs && h.nextRequestId == s.nextRequestId
            && h.hist.Keys == s.hist.Keys && forall q :: q in s.hist ==> h.hist[q].queued == s.hist[q].queued
  {
  }

  lemma LineIsReceived(cfg: Config, s: ServerState, ref: SessionRef, line: string)
    requires Inv(cfg, s) && RecvToken(ref) in s.tokens && ValidOrder(cfg.order)
    requires IsLive(s, ref) && s.sessions[ref.fd].input == "" && '\n' !in line && !IsOutOfRange(line)
    ensures Handling(cfg, AtLine(s, ref, line), ref) && !AtLine(s, ref, line).terminated
    ensures var r, t := HandleLine(cfg, AtLine(s, ref, line), ref, line), OnRecv(cfg, s, ref, line + "\n");
            t.world == r.world && t.jobs == r.jobs && t.nextRequestId == r.nextRequestId && t.hist == r.hist
  {
    var h := AtLine(s, ref, line);
    ReadyForLine(cfg, s, ref, line);
    FirstLineHandled(cfg, Append(Consume(s, RecvToken(ref)), ref, line + "\n"), ref, line);
    HandleLineAround(cfg, h, ref, line);
    NothingLeftOver(cfg, HandleLine(cfg, h, ref, line), ref);
  }

  /** In every run: a listening client can send a line in a chunk of its own, and then the line is handled
      in a state as the lemmas on the commands ask for, with the world, the jobs and the queues of the
      state before; and the world, the jobs and the queues after the step are those after the line. */
  lemma ALineArrives(cfg: Config, s: SystemState, ref: SessionRef, line: string)
    requires Running(cfg, s) && Listening(s, ref)
    requires '\n' !in line && |line| < cfg.recvBuffer && !IsOutOfRange(line)
    ensures Enabled(cfg, s, Receive(ref, line + "\n"))
    ensures var h, t := AtLine(s.server, ref, line), Next(cfg, s, Receive(ref, line + "\n")).server;
            && Handling(cfg, h, ref) && !h.terminated && SameSurroundings(s.server, h)
            && SameSurroundings(HandleLine(cfg, h, ref, line), t)
  {
    EverySessionIsServed(cfg, s, ref.fd);
    assert SessionRef(ref.fd, s.server.sessions[ref.fd].generation) == ref;
    RunningInv(cfg, s);
    OpenIsPrefix(cfg, s.server, ref);
    SameAtLine(cfg, s.server, ref, line);
    LineIsReceived(cfg, s.server, ref, line);
  }

  // The same world, the same jobs, and the same replies queued for everybody.
  ghost predicate SameSurroundings(s: ServerState, r: ServerState) {
    && r.world == s.world && r.jobs == s.jobs && r.nextRequestId == s.nextRequestId
    && r.hist.Keys == s.hist.Keys && forall q :: q in s.hist ==> r.hist[q].queued == s.hist[q].queued
  }
}

/** The tables that the database workers keep: the registered players, their characters and their
    inventories.  Each job is one transaction, which may also fail without effect. */
module Tables {
  import opened Decimal
  import opened Geometry
  import opened Server

  datatype Row = Row(level: nat, gold: nat, x: int, y: int)

  datatype Item = Item(id: nat, count: nat)

  datatype Database = Database(
    players: map<string, nat>,                // account to player id
    nextPlayerId: nat,
    characters: map<(nat, string), Row>,      // by player id and character name
    inventory: map<(nat, nat), Item>)         // by player id and slot

  const UINT_LIMIT: nat := 0x1_0000_0000
  const ULONG_LIMIT: nat := 0x1_0000_0000_0000_0000

  // `std::stoul` and `std::stoull` on the text of an unsigned number.
  function Stoul(s: string): Option<nat> {
    if IsUnsignedNumber(s) && UnsignedValue(s) < ULONG_LIMIT then Some(UnsignedValue(s)) else None
  }

  // What a save writes: the level is cut to 32 bits on the way.
  datatype Write = Progress(level: nat, gold: nat) | Position(x: int, y: int)

  datatype Save = Save(account: string, character: string, write: Write)

  // The arguments of a save; none if reading them throws.
  function SaveOf(job: DbJob): Option<Save> {
    if |job.args| < 4 then None
    else if job.operation.SaveCharacterRow? then
      var level, gold := Stoul(job.args[2]), Stoul(job.args[3]);
      if level.None? || gold.None? then None
      else Some(Save(job.args[0], job.args[1], Progress(level.value % UINT_LIMIT, gold.value)))
    else if job.operation.SavePosition? && IsSignedNumber(job.args[2]) && IsSignedNumber(job.args[3]) then
      var x, y := Stoi(job.args[2]), Stoi(job.args[3]);
      if x.None? || y.None? then None
      else Some(Save(job.args[0], job.args[1], Position(x.value, y.value)))
    else None
  }

  // Insert the row, or update the columns the save is about.
  function Upsert(characters: map<(nat, string), Row>, key: (nat, string), write: Write): map<(nat, string), Row> {
    match write
    case Progress(level, gold) =>
      characters[key :=
        if key in characters then characters[key].(level := level, gold := gold) else Row(level, gold, 0, 0)]
    case Position(x, y) =>
      characters[key := if key in characters then characters[key].(x := x, y := y) else Row(1, 0, x, y)]
  }

  // The tables after a job's transaction commits; none if it cannot.
  function Commit(t: Database, job: DbJob): Option<Database> {
    match job.operation
    case RegisterPlayer =>
      if job.args == [] || job.args[0] in t.players then None
      else Some(t.(players := t.players[job.args[0] := t.nextPlayerId], nextPlayerId := t.nextPlayerId + 1))
    case SaveCharacterRow => CommitSave(t, SaveOf(job))
    case SavePosition => CommitSave(t, SaveOf(job))
    case SaveInventoryRow => if |job.args| < 4 then None else CommitItem(t, job.args[0], StackOf(job.args[1..]))
    case _ => if job.args == [] || job.args[0] !in t.players then None else Some(t)
  }

  function CommitSave(t: Database, save: Option<Save>): Option<Database> {
    match save
    case None => None
    case Some(Save(account, character, write)) =>
      if account !in t.players then None
      else Some(t.(characters := Upsert(t.characters, (t.players[account], character), write)))
  }

  // What a slot is to hold; the slot and the count are cut to 32 bits on the way.
  datatype Stack = Stack(slot: nat, item: Item)

  // A slot, an item and a count; none if reading them throws.
  function StackOf(args: seq<string>): Option<Stack>
    requires |args| >= 3
  {
    var slot, id, count := Stoul(args[0]), Stoul(args[1]), Stoul(args[2]);
    if slot.None? || id.None? || count.None? then None
    else Some(Stack(slot.value % UINT_LIMIT, Item(id.value, count.value % UINT_LIMIT)))
  }

  // A count of zero empties the slot.
  function CommitItem(t: Database, account: string, stack: Option<Stack>): Option<Database> {
    if account !in t.players || stack.None? then None
    else
      var key := (t.players[account], stack.value.slot);
      Some(t.(inventory :=
        if stack.value.item.count == 0 then t.inventory - {key} else t.inventory[key := stack.value.item]))
  }

  // One executed job: committed, or failed without effect; with the line it reports.
  datatype Execution = Execution(job: DbJob, committed: bool, line: string)

  function Execute(t: Database, e: Execution): Database {
    if !e.committed then t
    else match Commit(t, e.job) case None => t case Some(t1) => t1
  }

  function ExecuteAll(t: Database, es: seq<Execution>): Database {
    if es == [] then t else Execute(ExecuteAll(t, es[..|es| - 1]), es[|es| - 1])
  }

  // Only jobs that can commit do.
  predicate Legal(t: Database, es: seq<Execution>) {
    es == [] ||
    (Legal(t, es[..|es| - 1]) &&
     (es[|es| - 1].committed ==> Commit(ExecuteAll(t, es[..|es| - 1]), es[|es| - 1].job).Some?))
  }

  // Ids are unique, and rows belong to registered players.
  ghost predicate DatabaseValid(t: Database) {
    && (forall a :: a in t.players ==> t.players[a] < t.nextPlayerId)
    && (forall a, b :: a in t.players && b in t.players && t.players[a] == t.players[b] ==> a == b)
    && (forall key :: key in t.characters ==> key.0 < t.nextPlayerId)
    && (forall key :: key in t.inventory ==> key.0 < t.nextPlayerId)
  }

  // ---------- The reference: the last save of each kind ----------

  function Committed(e: Execution): Option<Save> {
    if e.committed then SaveOf(e.job) else None
  }

  function LastProgress(es: seq<Execution>, account: string, character: string): Option<Write> {
    if es == [] then None
    else match Committed(es[|es| - 1])
      case Some(Save(a, c, Progress(level, gold))) =>
        if a == account && c == character then Some(Progress(level, gold))
        else LastProgress(es[..|es| - 1], account, character)
      case _ => LastProgress(es[..|es| - 1], account, character)
  }

  function LastPosition(es: seq<Execution>, account: string, character: string): Option<Write> {
    if es == [] then None
    else match Committed(es[|es| - 1])
      case Some(Save(a, c, Position(x, y))) =>
        if a == account && c == character then Some(Position(x, y))
        else LastPosition(es[..|es| - 1], account, character)
      case _ => LastPosition(es[..|es| - 1], account, character)
  }

  // A row with the progress and the position last saved, where there were any.
  function Overwritten(row: Option<Row>, progress: Option<Write>, position: Option<Write>): Option<Row> {
    if row.None? && progress.None? && position.None? then None
    else
      var base := if row.Some? then row.value else Row(1, 0, 0, 0);
      var improved := match progress case Some(Progress(l, g)) => base.(level := l, gold := g) case _ => base;
      Some(match position case Some(Position(x, y)) => improved.(x := x, y := y) case _ => improved)
  }

  function RowOf(t: Database, account: string, character: string): Option<Row> {
    if account in t.players && (t.players[account], character) in t.characters
    then Some(t.characters[(t.players[account], character)]) else None
  }

  function ItemOf(t: Database, account: string, slot: nat): Option<Item> {
    if account in t.players && (t.players[account], slot) in t.inventory
    then Some(t.inventory[(t.players[account], slot)]) else None
  }

  // ---------- What each job does ----------

  // All rows but one character's are as they were.
  ghost predicate OtherRowsStay(t: Database, t1: Database, account: string, character: string) {
    forall a, c :: a != account || c != character ==> RowOf(t1, a, c) == RowOf(t, a, c)
  }

  // All slots but one are as they were.
  ghost predicate OtherSlotsStay(t: Database, t1: Database, account: string, slot: nat) {
    forall a, n :: a != account || n != slot ==> ItemOf(t1, a, n) == ItemOf(t, a, n)
  }

  /** A SAVE can be committed iff the account is registered and both numbers fit 64 bits; the row then
      has its level, cut to 32 bits, and its gold, and stands where it stood, or at 0 0 if it is new. */
  lemma SaveWrites(t: Database, job: DbJob, account: string, character: string, level: string, gold: string)
    requires DatabaseValid(t) && job.operation == SaveCharacterRow && job.args == [account, character, level, gold]
    requires IsUnsignedNumber(level) && IsUnsignedNumber(gold)
    ensures Commit(t, job).Some? <==>
            account in t.players && UnsignedValue(level) < 0x1_0000_0000_0000_0000 &&
            UnsignedValue(gold) < 0x1_0000_0000_0000_0000
    ensures Commit(t, job).Some? ==>
              var t1, row := Commit(t, job).value, RowOf(t, account, character);
              var x, y := if row.Some? then row.value.x else 0, if row.Some? then row.value.y else 0;
              && t1.players == t.players && t1.inventory == t.inventory
              && RowOf(t1, account, character) ==
                 Some(Row(UnsignedValue(level) % 0x1_0000_0000, UnsignedValue(gold), x, y))
              && OtherRowsStay(t, t1, account, character)
  {
  }

  /** A position save can be committed iff the account is registered and the place fits 32 bits; the row
      then stands there, and has the level and gold it had, or 1 and 0 if it is new. */
  lemma PositionWrites(t: Database, job: DbJob, p: Place)
    requires DatabaseValid(t) && job.operation == SavePosition && job.args == SaveArgs(p)
    ensures Commit(t, job).Some? <==> p.account in t.players && FitsIntPlace(p)
    ensures Commit(t, job).Some? ==>
              var t1, row := Commit(t, job).value, RowOf(t, p.account, p.character);
              var level, gold := if row.Some? then row.value.level else 1, if row.Some? then row.value.gold else 0;
              && t1.players == t.players && t1.inventory == t.inventory
              && RowOf(t1, p.account, p.character) == Some(Row(level, gold, p.x, p.y))
              && OtherRowsStay(t, t1, p.account, p.character)
  {
    RoundTrip(p.x);
    RoundTrip(p.y);
  }

  /** A SAVE_ITEM can be committed iff the account is registered and its numbers fit 64 bits; the slot
      then holds that many of the item, slot and count cut to 32 bits, or nothing if that leaves none. */
  lemma ItemWrites(t: Database, job: DbJob, account: string, slot: string, id: string, count: string)
    requires DatabaseValid(t) && job.operation == SaveInventoryRow && job.args == [account, slot, id, count]
    requires IsUnsignedNumber(slot) && IsUnsignedNumber(id) && IsUnsignedNumber(count)
    ensures Commit(t, job).Some? <==>
            account in t.players && UnsignedValue(slot) < 0x1_0000_0000_0000_0000 &&
            UnsignedValue(id) < 0x1_0000_0000_0000_0000 && UnsignedValue(count) < 0x1_0000_0000_0000_0000
    ensures Commit(t, job).Some? ==>
              var t1, n, left := Commit(t, job).value, UnsignedValue(slot) % 0x1_0000_0000,
                UnsignedValue(count) % 0x1_0000_0000;
              && t1.players == t.players && t1.characters == t.characters
              && ItemOf(t1, account, n) == (if left == 0 then None else Some(Item(UnsignedValue(id), left)))
              && OtherSlotsStay(t, t1, account, n)
  {
  }

  /** A REGISTER can be committed iff the account is not registered; it then is, with no character and
      an empty inventory, and nobody else's rows or slots change. */
  lemma RegisterAdds(t: Database, job: DbJob, account: string)
    requires DatabaseValid(t) && job.operation == RegisterPlayer && job.args != [] && job.args[0] == account
    ensures Commit(t, job).Some? <==> account !in t.players
    ensures Commit(t, job).Some? ==>
              var t1 := Commit(t, job).value;
              && t1.players.Keys == t.players.Keys + {account}
              && (forall a, c :: RowOf(t1, a, c) == RowOf(t, a, c))
              && (forall a, n :: ItemOf(t1, a, n) == ItemOf(t, a, n))
              && (forall c :: RowOf(t1, account, c) == None) && (forall n :: ItemOf(t1, account, n) == None)
  {
  }

  /** LOGIN, LOAD and LOAD_INVENTORY can be committed iff the account is registered, and change nothing. */
  lemma ReadersChangeNothing(t: Database, job: DbJob, account: string)
    requires job.operation in {LoginPlayer, LoadCharacterRows, LoadInventoryRows} && job.args == [account]
    ensures Commit(t, job) == if account in t.players then Some(t) else None
  {
  }

  // ---------- The last saves decide ----------

  lemma CommitKeepsValid(t: Database, job: DbJob)
    requires DatabaseValid(t) && Commit(t, job).Some?
    ensures DatabaseValid(Commit(t, job).value)
  {
    if job.operation == SaveInventoryRow {
      ItemKeepsValid(t, job.args[0], StackOf(job.args[1..]));
    } else if job.operation == SaveCharacterRow || job.operation == SavePosition {
      SaveKeepsValid(t, SaveOf(job));
    }
  }

  lemma ItemKeepsValid(t: Database, account: string, stack: Option<Stack>)
    requires DatabaseValid(t) && CommitItem(t, account, stack).Some?
    ensures DatabaseValid(CommitItem(t, account, stack).value)
  {
  }

  lemma SaveKeepsValid(t: Database, save: Option<Save>)
    requires DatabaseValid(t) && CommitSave(t, save).Some?
    ensures DatabaseValid(CommitSave(t, save).value)
  {
  }

  // A row after one more save, which may be about another character.
  function Written(row: Option<Row>, save: Option<Save>, account: string, character: string): Option<Row> {
    match save
    case Some(Save(a, c, write)) =>
      if a != account || c != character then row
      else if write.Progress? then Overwritten(row, Some(write), None)
      else Overwritten(row, None, Some(write))
    case None => row
  }

  function Cell(characters: map<(nat, string), Row>, key: (nat, string)): Option<Row> {
    if key in characters then Some(characters[key]) else None
  }

  lemma UpsertCell(characters: map<(nat, string), Row>, key: (nat, string), write: Write, other: (nat, string))
    ensures Cell(Upsert(characters, key, write), other) ==
            if key != other then Cell(characters, other)
            else if write.Progress? then Overwritten(Cell(characters, key), Some(write), None)
            else Overwritten(Cell(characters, key), None, Some(write))
  {
  }

  lemma SaveRow(t: Database, save: Option<Save>, account: string, character: string)
    requires DatabaseValid(t) && CommitSave(t, save).Some?
    ensures RowOf(CommitSave(t, save).value, account, character) ==
            Written(RowOf(t, account, character), save, account, character)
  {
    var Save(a, c, write) := save.value;
    if account in t.players {
      UpsertCell(t.characters, (t.players[a], c), write, (t.players[account], character));
    }
  }

  // Registering a player and reading leave the characters alone.
  lemma NoSaveNoRow(t: Database, job: DbJob, account: string, character: string)
    requires DatabaseValid(t) && Commit(t, job).Some? &&
             !job.operation.SaveCharacterRow? && !job.operation.SavePosition?
    ensures RowOf(Commit(t, job).value, account, character) == RowOf(t, account, character)
  {
  }

  lemma ExecuteRow(t: Database, e: Execution, account: string, character: string)
    requires DatabaseValid(t) && (e.committed ==> Commit(t, e.job).Some?)
    ensures DatabaseValid(Execute(t, e))
    ensures RowOf(Execute(t, e), account, character) ==
      Written(RowOf(t, account, character), Committed(e), account, character)
  {
    if e.committed {
      CommitKeepsValid(t, e.job);
      if e.job.operation.SaveCharacterRow? || e.job.operation.SavePosition? {
        SaveRow(t, SaveOf(e.job), account, character);
      } else {
        NoSaveNoRow(t, e.job, account, character);
      }
    }
  }

  lemma LastOverwrites(row: Option<Row>, es: seq<Execution>, account: string, character: string)
    requires es != []
    ensures var most := es[..|es| - 1];
            Overwritten(row, LastProgress(es, account, character), LastPosition(es, account, character)) ==
            Written(Overwritten(row, LastProgress(most, account, character), LastPosition(most, account, character)),
                    Committed(es[|es| - 1]), account, character)
  {
  }

  /** Whatever the jobs executed, in whatever order, and whichever of them failed: a character's row
      has the level and gold of the last committed SAVE and the coordinates of the last committed
      SAVE_POSITION, and what it had before, or 1, 0 and 0, 0, where there was none. */
  lemma {:induction false} RowIsTheLastSaves(t: Database, es: seq<Execution>, account: string, character: string)
    requires DatabaseValid(t) && Legal(t, es)
    ensures DatabaseValid(ExecuteAll(t, es))
    ensures RowOf(ExecuteAll(t, es), account, character) ==
            Overwritten(RowOf(t, account, character),
                        LastProgress(es, account, character), LastPosition(es, account, character))
  {
    if es == [] {
    } else {
      var most, e := es[..|es| - 1], es[|es| - 1];
      RowIsTheLastSaves(t, most, account, character);
      ExecuteRow(ExecuteAll(t, most), e, account, character);
      LastOverwrites(RowOf(t, account, character), es, account, character);
    }
  }

  // What a committed SAVE_ITEM puts into the slot.
  function ItemSaved(e: Execution, account: string, slot: nat): Option<Item> {
    if !e.committed || e.job.operation != SaveInventoryRow || |e.job.args| < 4 || e.job.args[0] != account then None
    else match StackOf(e.job.args[1..])
      case Some(Stack(n, item)) => if n == slot then Some(item) else None
      case None => None
  }

  function LastItem(es: seq<Execution>, account: string, slot: nat): Option<Item> {
    if es == [] then None
    else
      var last := ItemSaved(es[|es| - 1], account, slot);
      if last.Some? then last else LastItem(es[..|es| - 1], account, slot)
  }

  function Replaced(was: Option<Item>, saved: Option<Item>): Option<Item> {
    if saved.None? then was else if saved.value.count == 0 then None else saved
  }

  lemma ExecuteItem(t: Database, e: Execution, account: string, slot: nat)
    requires DatabaseValid(t) && (e.committed ==> Commit(t, e.job).Some?)
    ensures ItemOf(Execute(t, e), account, slot) == Replaced(ItemOf(t, account, slot), ItemSaved(e, account, slot))
  {
  }

  /** And a slot holds what the last committed SAVE_ITEM put there: nothing if its count was zero. */
  lemma {:induction false} SlotIsTheLastSave(t: Database, es: seq<Execution>, account: string, slot: nat)
    requires DatabaseValid(t) && Legal(t, es)
    ensures ItemOf(ExecuteAll(t, es), account, slot) ==
            Replaced(ItemOf(t, account, slot), LastItem(es, account, slot))
  {
    if es == [] {
    } else {
      var most, e := es[..|es| - 1], es[|es| - 1];
      SlotIsTheLastSave(t, most, account, slot);
      RowIsTheLastSaves(t, most, account, "");
      ExecuteItem(ExecuteAll(t, most), e, account, slot);
    }
  }

  /** A SAVE and a SAVE_POSITION can be executed in either order. */
  lemma SavesCommute(t: Database, a: DbJob, b: DbJob)
    requires DatabaseValid(t) && a.operation == SaveCharacterRow && b.operation == SavePosition
    requires Commit(t, a).Some? && Commit(t, b).Some?
    ensures Commit(Commit(t, a).value, b).Some? && Commit(Commit(t, a).value, b) == Commit(Commit(t, b).value, a)
  {
    var p, q := SaveOf(a).value, SaveOf(b).value;
    UpsertsCommute(t.characters, (t.players[p.account], p.character), p.write,
                   (t.players[q.account], q.character), q.write);
  }

  lemma UpsertsCommute(
    characters: map<(nat, string), Row>, k: (nat, string), progress: Write, l: (nat, string), position: Write)
    requires progress.Progress? && position.Position?
    ensures Upsert(Upsert(characters, k, progress), l, position) == Upsert(Upsert(characters, l, position), k, progress)
  {
  }

  /** Jobs for an account that is never registered leave no trace: none of its saves commits. */
  lemma {:induction false} StrangersLeaveNoTrace(t: Database, es: seq<Execution>, account: string, character: string)
    requires DatabaseValid(t) && Legal(t, es) && account !in ExecuteAll(t, es).players
    ensures account !in t.players
    ensures LastProgress(es, account, character) == None && LastPosition(es, account, character) == None
    ensures RowOf(ExecuteAll(t, es), account, character) == None
  {
    if es == [] {
    } else {
      var most, e := es[..|es| - 1], es[|es| - 1];
      assert account !in ExecuteAll(t, most).players;
      StrangersLeaveNoTrace(t, most, account, character);
    }
  }

  /** The text of a position save reads back as the position, exactly when that fits the `int`s the
      server keeps. */
  lemma PositionRoundTrip(job: DbJob, p: Place)
    requires job.operation == SavePosition && job.args == SaveArgs(p)
    ensures SaveOf(job) == Some(Save(p.account, p.character, Position(p.x, p.y))) <==> FitsIntPlace(p)
  {
    RoundTrip(p.x);
    RoundTrip(p.y);
  }

  predicate FitsIntPlace(p: Place) {
    FitsInt(p.x) && FitsInt(p.y)
  }
}

/** What the workers execute and what the tables hold after it, in every run. */
module Storage {
  import opened Decimal
  import opened Geometry
  import opened World
  import opened Protocol
  import opened Server
  import opened ServerCore
  import opened ServerLines
  import opened ServerPlaces
  import opened ServerOutbound
  import opened ServerJobs
  import T = Tables
  import opened Tables
  import opened System
  import opened Runs

  // ---------- The order of execution ----------

  function JobsOf(es: seq<Execution>): seq<DbJob> {
    seq(|es|, i requires 0 <= i < |es| => es[i].job)
  }

  // The jobs that the workers are executing.
  function InHand(workers: seq<Worker>): seq<DbJob> {
    if workers == [] then []
    else InHand(workers[..|workers| - 1]) + HeldBy(workers[|workers| - 1])
  }

  function HeldBy(worker: Worker): seq<DbJob> {
    match worker case Executing(job) => [job] case _ => []
  }

  lemma {:induction false} InHandUpdate(workers: seq<Worker>, i: nat, w: Worker)
    requires i < |workers|
    ensures multiset(InHand(workers[i := w])) + multiset(HeldBy(workers[i])) ==
            multiset(InHand(workers)) + multiset(HeldBy(w))
  {
    var most := workers[..|workers| - 1];
    var updated := workers[i := w];
    if i == |workers| - 1 {
      assert updated[..|workers| - 1] == most;
      LastHeld(InHand(most), HeldBy(w), HeldBy(workers[i]));
    } else {
      InHandUpdate(most, i, w);
      assert updated[..|workers| - 1] == most[i := w];
      Exchange(multiset(InHand(most[i := w])), multiset(HeldBy(workers[i])), multiset(InHand(most)),
               multiset(HeldBy(w)),
               multiset(HeldBy(workers[|workers| - 1])));
    }
  }

  lemma LastHeld<T>(most: seq<T>, a: seq<T>, b: seq<T>)
    ensures multiset(most + a) + multiset(b) == multiset(most + b) + multiset(a)
  {
    assert multiset(most + a) == multiset(most) + multiset(a) && multiset(most + b) == multiset(most) + multiset(b);
  }

  lemma {:induction false} NothingInHand(n: nat)
    ensures InHand(seq(n, _ => Idle)) == []
  {
    if n == 0 {
    } else {
      NothingInHand(n - 1);
      assert seq(n, _ => Idle)[..n - 1] == seq(n - 1, _ => Idle);
    }
  }

  lemma JobsOfAppend(es: seq<Execution>, e: Execution)
    ensures JobsOf(es + [e]) == JobsOf(es) + [e.job]
  {
  }

  // Started jobs are with a worker or executed, each once.
  ghost predicate StartedOnce(s: SystemState) {
    multiset(s.started) == multiset(JobsOf(s.executed)) + multiset(InHand(s.workers))
  }

  lemma OneMore<T>(a: multiset<T>, b: multiset<T>, c: multiset<T>, d: multiset<T>, t: T)
    requires a == b + c && d == c + multiset{t}
    ensures a + multiset{t} == b + d
  {
  }

  lemma Handed<T>(a: multiset<T>, b: multiset<T>, c: multiset<T>, d: multiset<T>, t: T)
    requires a == b + c && d + multiset{t} == c
    ensures a == (b + multiset{t}) + d
  {
  }

  lemma TakeKeepsStarted(cfg: Config, s: SystemState, i: nat)
    requires Enabled(cfg, s, Take(i)) && StartedOnce(s)
    ensures StartedOnce(Next(cfg, s, Take(i)))
  {
    var job := s.server.jobs[0];
    InHandUpdate(s.workers, i, Executing(job));
    NothingMore(multiset(InHand(s.workers[i := Executing(job)])), multiset(InHand(s.workers)) + multiset{job});
    OneMore(multiset(s.started), multiset(JobsOf(s.executed)), multiset(InHand(s.workers)),
            multiset(InHand(s.workers[i := Executing(job)])), job);
  }

  lemma ExecuteKeepsStarted(cfg: Config, s: SystemState, i: nat, ok: bool, line: string)
    requires Enabled(cfg, s, System.Execute(i, ok, line)) && StartedOnce(s)
    ensures StartedOnce(Next(cfg, s, System.Execute(i, ok, line)))
  {
    var job := s.workers[i].job;
    var w := Executed(DbCompletion(job.ticket, ok, line));
    InHandUpdate(s.workers, i, w);
    NothingMore(multiset(InHand(s.workers[i := w])) + multiset{job}, multiset(InHand(s.workers)));
    JobsOfAppend(s.executed, Execution(job, ok, line));
    Handed(multiset(s.started), multiset(JobsOf(s.executed)), multiset(InHand(s.workers)),
           multiset(InHand(s.workers[i := w])), job);
  }

  lemma SameInHand(workers: seq<Worker>, i: nat, w: Worker)
    requires i < |workers| && HeldBy(workers[i]) == HeldBy(w) == []
    ensures multiset(InHand(workers[i := w])) == multiset(InHand(workers))
  {
    InHandUpdate(workers, i, w);
    NothingMore(multiset(InHand(workers[i := w])), multiset(InHand(workers)));
  }

  lemma StepKeepsStarted(cfg: Config, s: SystemState, step: SystemStep)
    requires Enabled(cfg, s, step) && StartedOnce(s)
    ensures StartedOnce(Next(cfg, s, step))
  {
    match step
    case Take(i) => TakeKeepsStarted(cfg, s, i);
    case Execute(i, ok, line) => ExecuteKeepsStarted(cfg, s, i, ok, line);
    case Push(i) => TellingKeepsStarted(cfg, s, step);
    case Signal(i) => TellingKeepsStarted(cfg, s, step);
    case _ => LoopKeepsWorkers(cfg, s, step);
  }

  lemma TellingKeepsStarted(cfg: Config, s: SystemState, step: SystemStep)
    requires Enabled(cfg, s, step) && StartedOnce(s) && (step.Push? || step.Signal?)
    ensures StartedOnce(Next(cfg, s, step))
  {
    SameInHand(s.workers, step.i, if step.Push? then Signalling else Idle);
  }

  lemma LoopKeepsWorkers(cfg: Config, s: SystemState, step: SystemStep)
    requires Enabled(cfg, s, step) && !IsWorkers(step)
    ensures var r := Next(cfg, s, step);
            r.workers == s.workers && r.started == s.started && r.executed == s.executed && r.tables == s.tables
  {
  }

  /** Every job that any worker executes was submitted, and none is executed twice. */
  lemma JobsExecuteOnce(cfg: Config, workers: nat, database: Database, s: SystemState)
    requires ReachableFrom(cfg, workers, database, s) && ValidOrder(cfg.order) && !s.server.terminated
    ensures multiset(s.submitted) ==
      multiset(JobsOf(s.executed)) + multiset(InHand(s.workers)) + multiset(s.server.jobs)
    ensures forall i, j :: 0 <= i < j < |s.executed| ==> s.executed[i].job != s.executed[j].job
  {
    var steps :| Executes(cfg, Start(workers, database), steps) && s == After(cfg, Start(workers, database), steps);
    RunKeepsStarted(cfg, workers, database, steps);
    assert Reachable(cfg, s);
    JobsAreConserved(cfg, s);
    ExecutedOnce(s);
  }

  lemma ExecutedOnce(s: SystemState)
    requires StartedOnce(s) && s.submitted == s.started + s.server.jobs
    requires forall i :: 0 <= i < |s.submitted| ==> s.submitted[i].ticket.id == i + 1
    ensures multiset(s.submitted) ==
      multiset(JobsOf(s.executed)) + multiset(InHand(s.workers)) + multiset(s.server.jobs)
    ensures forall i, j :: 0 <= i < j < |s.executed| ==> s.executed[i].job != s.executed[j].job
  {
    NotTwice(s.submitted, JobsOf(s.executed), multiset(InHand(s.workers)) + multiset(s.server.jobs));
    forall i, j | 0 <= i < j < |s.executed| ensures s.executed[i].job != s.executed[j].job {
      assert JobsOf(s.executed)[i] != JobsOf(s.executed)[j];
    }
  }

  lemma {:induction false} RunKeepsStarted(cfg: Config, workers: nat, database: Database, steps: seq<SystemStep>)
    requires Executes(cfg, Start(workers, database), steps)
    ensures StartedOnce(After(cfg, Start(workers, database), steps))
  {
    if steps == [] {
      NothingInHand(workers);
    } else {
      RunKeepsStarted(cfg, workers, database, steps[..|steps| - 1]);
      StepKeepsStarted(cfg, After(cfg, Start(workers, database), steps[..|steps| - 1]), steps[|steps| - 1]);
    }
  }

  // Jobs that carry different ids are different, also after reordering.
  lemma NotTwice(all: seq<DbJob>, some: seq<DbJob>, rest: multiset<DbJob>)
    requires multiset(all) == multiset(some) + rest
    requires forall i :: 0 <= i < |all| ==> all[i].ticket.id == i + 1
    ensures forall i, j :: 0 <= i < j < |some| ==> some[i] != some[j]
  {
    forall i, j | 0 <= i < j < |some| ensures some[i] != some[j] {
      if some[i] == some[j] {
        TwiceInside(some, i, j);
        OnceEach(all, some[i]);
      }
    }
  }

  lemma TwiceInside<T>(a: seq<T>, i: nat, j: nat)
    requires i < j < |a| && a[i] == a[j]
    ensures multiset(a)[a[i]] >= 2
  {
    assert a == a[..i] + [a[i]] + a[i + 1..j] + [a[j]] + a[j + 1..];
  }

  lemma {:induction false} OnceEach(all: seq<DbJob>, job: DbJob)
    requires forall i :: 0 <= i < |all| ==> all[i].ticket.id == i + 1
    ensures multiset(all)[job] <= 1
    ensures job in all ==> job.ticket.id <= |all|
  {
    if all == [] {
    } else {
      var most, last := all[..|all| - 1], all[|all| - 1];
      OnceEach(most, job);
      assert all == most + [last];
    }
  }

  // ---------- One worker, two workers ----------

  lemma OneInHand(workers: seq<Worker>)
    requires |workers| == 1
    ensures InHand(workers) == HeldBy(workers[0])
  {
    assert workers[..0] == [];
  }

  ghost predicate InOrder(s: SystemState) {
    s.submitted == JobsOf(s.executed) + InHand(s.workers) + s.server.jobs
  }

  /** A single worker executes the jobs in the order in which they were submitted. */
  lemma {:induction false} OneWorkerKeepsOrder(cfg: Config, workers: nat, database: Database, steps: seq<SystemStep>)
    requires workers <= 1 && Executes(cfg, Start(workers, database), steps) && ValidOrder(cfg.order)
    ensures var s := After(cfg, Start(workers, database), steps);
            && |s.workers| == workers
            && s.submitted == JobsOf(s.executed) + InHand(s.workers) + s.server.jobs
  {
    var start := Start(workers, database);
    StartInv(cfg, workers, database);
    RunKeepsInv(cfg, start, steps);
    if steps == [] {
      NothingInHand(workers);
    } else {
      var most, step := steps[..|steps| - 1], steps[|steps| - 1];
      OneWorkerKeepsOrder(cfg, workers, database, most);
      RunKeepsInv(cfg, start, most);
      StepKeepsOrder(cfg, After(cfg, start, most), step);
    }
  }

  lemma ServeKeepsOrder(s: SystemState, server: ServerState)
    requires InOrder(s) && Grown(s.server, server)
    ensures InOrder(Serve(s, server))
  {
    assert server.jobs == s.server.jobs + server.jobs[|s.server.jobs|..];
  }

  lemma StepKeepsOrder(cfg: Config, s: SystemState, step: SystemStep)
    requires SystemInv(cfg, s) && InOrder(s) && Enabled(cfg, s, step) && |s.workers| <= 1 && ValidOrder(cfg.order)
    ensures InOrder(Next(cfg, s, step))
  {
    match step
    case Accept(fd) =>
      OnAcceptGrows(cfg, s.server, fd);
      ServeKeepsOrder(s, OnAccept(cfg, s.server, fd));
    case Receive(ref, chunk) =>
      OnRecvGrows(cfg, s.server, ref, chunk);
      ServeKeepsOrder(s, OnRecv(cfg, s.server, ref, chunk));
    case Sent(ref, payload, n) =>
      OnSentGrows(cfg, s.server, ref, payload, n);
      ServeKeepsOrder(s, OnSent(cfg, s.server, ref, payload, n));
    case PopCompletion =>
      PopIsOutstanding(cfg, s);
      OnCompletionKeepsInv(cfg, s.server, s.completions[0]);
    case _ => WorkerKeepsOrder(cfg, s, step);
  }

  lemma WorkerKeepsOrder(cfg: Config, s: SystemState, step: SystemStep)
    requires InOrder(s) && Enabled(cfg, s, step) && |s.workers| <= 1
    requires !step.Accept? && !step.Receive? && !step.Sent? && !step.PopCompletion?
    ensures InOrder(Next(cfg, s, step))
  {
    if step.Execute? {
      ExecuteKeepsOrder(cfg, s, step);
    } else if step.Take? {
      TakeKeepsOrder(cfg, s, step);
    } else if IsWorkers(step) {
      OneInHand(s.workers);
      OneInHand(Next(cfg, s, step).workers);
    }
  }

  lemma TakeKeepsOrder(cfg: Config, s: SystemState, step: SystemStep)
    requires InOrder(s) && Enabled(cfg, s, step) && |s.workers| == 1 && step.Take?
    ensures InOrder(Next(cfg, s, step))
  {
    OneInHand(s.workers);
    OneInHand(Next(cfg, s, step).workers);
    assert JobsOf(s.executed) + [] == JobsOf(s.executed);
    FrontMoves(JobsOf(s.executed), s.server.jobs);
  }

  lemma ExecuteKeepsOrder(cfg: Config, s: SystemState, step: SystemStep)
    requires InOrder(s) && Enabled(cfg, s, step) && |s.workers| <= 1 && step.Execute?
    ensures InOrder(Next(cfg, s, step))
  {
    var job := s.workers[step.i].job;
    OneInHand(s.workers);
    OneInHand(Next(cfg, s, step).workers);
    JobsOfAppend(s.executed, Execution(job, step.ok, step.line));
    assert JobsOf(s.executed) + [job] == (JobsOf(s.executed) + [job]) + [];
  }

  /** Two workers need not: whenever two are idle and two jobs are queued, the second can be executed
      before the first, whether it commits or fails. */
  lemma TwoWorkersMayNot(cfg: Config, s: SystemState, i: nat, j: nat, ok: bool)
    requires i < |s.workers| && j < |s.workers| && i != j && s.workers[i] == Idle && s.workers[j] == Idle
    requires !s.server.terminated && |s.server.jobs| >= 2
    requires ok ==> Commit(s.tables, s.server.jobs[1]).Some?
    ensures var steps := [] + [Take(i)] + [Take(j)] + [System.Execute(j, ok, "")];
            && Executes(cfg, s, steps)
            && After(cfg, s, steps).executed == s.executed + [Execution(s.server.jobs[1], ok, "")]
  {
    assert Executes(cfg, s, []) && After(cfg, s, []) == s;
    SecondFirst(cfg, s, i, j, ok);
    RunMore(cfg, s, [], Take(i));
    RunMore(cfg, s, [] + [Take(i)], Take(j));
    RunMore(cfg, s, [] + [Take(i)] + [Take(j)], System.Execute(j, ok, ""));
  }

  lemma SecondFirst(cfg: Config, s: SystemState, i: nat, j: nat, ok: bool)
    requires i < |s.workers| && j < |s.workers| && i != j && s.workers[i] == Idle && s.workers[j] == Idle
    requires !s.server.terminated && |s.server.jobs| >= 2
    requires ok ==> Commit(s.tables, s.server.jobs[1]).Some?
    ensures Enabled(cfg, s, Take(i)) && Enabled(cfg, Next(cfg, s, Take(i)), Take(j))
    ensures var t := Next(cfg, Next(cfg, s, Take(i)), Take(j));
            && Enabled(cfg, t, System.Execute(j, ok, ""))
            && Next(cfg, t, System.Execute(j, ok, "")).executed ==
               s.executed + [Execution(s.server.jobs[1], ok, "")]
  {
    assert s.server.jobs[1..][0] == s.server.jobs[1];
  }

  // ---------- The tables ----------

  ghost predicate Stored(database: Database, s: SystemState) {
    s.tables == ExecuteAll(database, s.executed) && Legal(database, s.executed)
  }

  lemma StepKeepsStored(cfg: Config, database: Database, s: SystemState, step: SystemStep)
    requires Enabled(cfg, s, step) && Stored(database, s)
    ensures Stored(database, Next(cfg, s, step))
  {
    if step.Execute? {
      var e := Execution(s.workers[step.i].job, step.ok, step.line);
      assert (s.executed + [e])[..|s.executed|] == s.executed;
    } else if !IsWorkers(step) {
      LoopKeepsWorkers(cfg, s, step);
    }
  }

  lemma {:induction false} RunKeepsStored(cfg: Config, workers: nat, database: Database, steps: seq<SystemStep>)
    requires Executes(cfg, Start(workers, database), steps)
    ensures Stored(database, After(cfg, Start(workers, database), steps))
  {
    if steps == [] {
    } else {
      RunKeepsStored(cfg, workers, database, steps[..|steps| - 1]);
      StepKeepsStored(cfg, database, After(cfg, Start(workers, database), steps[..|steps| - 1]), steps[|steps| - 1]);
    }
  }

  /** In every interleaving with any number of workers: a character's row holds the level and gold of
      the last SAVE and the coordinates of the last SAVE_POSITION that was committed for it. */
  lemma RowsAreTheLastSaves(
    cfg: Config, workers: nat, database: Database, s: SystemState, account: string, character: string)
    requires ReachableFrom(cfg, workers, database, s) && DatabaseValid(database)
    ensures RowOf(s.tables, account, character) ==
            Overwritten(RowOf(database, account, character),
                        LastProgress(s.executed, account, character), LastPosition(s.executed, account, character))
  {
    var steps :| Executes(cfg, Start(workers, database), steps) && s == After(cfg, Start(workers, database), steps);
    RunKeepsStored(cfg, workers, database, steps);
    RowIsTheLastSaves(database, s.executed, account, character);
  }

  /** And an inventory slot holds what the last committed SAVE_ITEM put there. */
  lemma SlotsAreTheLastSaves(
    cfg: Config, workers: nat, database: Database, s: SystemState, account: string, slot: nat)
    requires ReachableFrom(cfg, workers, database, s) && DatabaseValid(database)
    ensures ItemOf(s.tables, account, slot) ==
            Replaced(ItemOf(database, account, slot), LastItem(s.executed, account, slot))
  {
    var steps :| Executes(cfg, Start(workers, database), steps) && s == After(cfg, Start(workers, database), steps);
    RunKeepsStored(cfg, workers, database, steps);
    SlotIsTheLastSave(database, s.executed, account, slot);
  }

  // ---------- Position saves can be read ----------

  predicate Fits(p: Place) {
    FitsInt(p.x) && FitsInt(p.y)
  }

  lemma LineFits(p: Option<Place>, line: string)
    requires p.Some? ==> Fits(p.value)
    ensures PlaceAfter(p, line).Some? ==> Fits(PlaceAfter(p, line).value)
    ensures forall q :: q in SavesAfter(p, line) ==> Fits(q)
  {
    OpFits(line);
  }

  lemma OpFits(line: string)
    ensures match LineOp(NOBODY, line)
            case Some(DoEnter(_, account, character, x, y)) => Fits(Place(account, character, x, y))
            case Some(DoMove(_, x, y)) => FitsInt(x) && FitsInt(y)
            case _ => true
  {
    match Parse(line)
    case Error(_) =>
    case Ok(r) =>
      ParseAccepts(line, r);
      CoordinatesOf(r);
  }

  lemma {:induction false} PlacesFit(lines: seq<string>)
    ensures Whereabouts(lines).Some? ==> Fits(Whereabouts(lines).value)
    ensures forall p :: p in SavedPlaces(lines) ==> Fits(p)
  {
    if lines == [] {
    } else {
      PlacesFit(lines[..|lines| - 1]);
      LineFits(Whereabouts(lines[..|lines| - 1]), lines[|lines| - 1]);
    }
  }

  /** The i-th position save submitted for a connection reads, for the worker that executes it, as the
      i-th place that the connection's lines and its end call for: it never fails for its numbers, and
      can commit exactly when its account is registered. */
  lemma PositionSavesRead(cfg: Config, s: SystemState, ref: SessionRef, i: nat, t: Database)
    requires Running(cfg, s) && ref in s.server.hist && i < |PositionSaves(s.submitted, ref)|
    ensures var places := ExpectedSaves(s.server.hist[ref].lines, !IsLive(s.server, ref));
            var job := PositionSaves(s.submitted, ref)[i];
            && i < |places|
            && SaveOf(job) == Some(Save(places[i].account, places[i].character, Position(places[i].x, places[i].y)))
            && (Commit(t, job).Some? <==> places[i].account in t.players)
  {
    PositionsAreSaved(cfg, s, ref);
    SavesRead(PositionSaves(s.submitted, ref), ref, s.server.hist[ref].lines, !IsLive(s.server, ref), i, t);
  }

  lemma SavesRead(jobs: seq<DbJob>, ref: SessionRef, lines: seq<string>, ended: bool, i: nat, t: Database)
    requires AreSavesOf(jobs, ref, ExpectedSaves(lines, ended)) && i < |jobs|
    ensures var p := ExpectedSaves(lines, ended)[i];
            && SaveOf(jobs[i]) == Some(Save(p.account, p.character, Position(p.x, p.y)))
            && (Commit(t, jobs[i]).Some? <==> p.account in t.players)
  {
    ExpectedFits(lines, ended, i);
    OneRead(jobs, ref, ExpectedSaves(lines, ended), i, t);
  }

  lemma ExpectedFits(lines: seq<string>, ended: bool, i: nat)
    requires i < |ExpectedSaves(lines, ended)|
    ensures Fits(ExpectedSaves(lines, ended)[i])
  {
    PlacesFit(lines);
    if i < |SavedPlaces(lines)| {
      SavedFits(lines, i);
    }
  }

  lemma OneRead(jobs: seq<DbJob>, ref: SessionRef, places: seq<Place>, i: nat, t: Database)
    requires AreSavesOf(jobs, ref, places) && i < |jobs| && Fits(places[i])
    ensures SaveOf(jobs[i]) == Some(Save(places[i].account, places[i].character, Position(places[i].x, places[i].y)))
    ensures Commit(t, jobs[i]).Some? <==> places[i].account in t.players
  {
    SaveReads(jobs, ref, places, i);
  }

  /** Of a player in the world, the save submitted last is of the place where it stands iff that is the
      place its last ENTER named; entering again, which saves the new place only, loses any other. */
  lemma PlaceIsSavedIff(cfg: Config, s: SystemState, ref: SessionRef, p: Place)
    requires Running(cfg, s) && PlaceIn(s.server.world, ref) == Some(p)
    ensures ref in s.server.hist
    ensures LastSavedIff(PositionSaves(s.submitted, ref), s.server.hist[ref].lines, p)
  {
    PlayerSaves(cfg, s, ref);
    LastSaveReads(PositionSaves(s.submitted, ref), ref, s.server.hist[ref].lines, p);
  }

  // There are saves, and the last of them is of this place iff the last ENTER named it.
  predicate LastSavedIff(saves: seq<DbJob>, lines: seq<string>, p: Place) {
    && saves != [] && LastEntered(lines).Some?
    && (ReadsAs(saves[|saves| - 1], p) <==> LastEntered(lines) == Some(p))
  }

  // What the worker that executes a job will save.
  predicate ReadsAs(job: DbJob, p: Place) {
    SaveOf(job) == Some(Save(p.account, p.character, Position(p.x, p.y)))
  }

  // Where a player stands and what was saved of it, by its lines.
  lemma PlayerSaves(cfg: Config, s: SystemState, ref: SessionRef)
    requires Running(cfg, s) && ref in s.server.world.players
    ensures ref in s.server.hist
    ensures PlaceIn(s.server.world, ref).Some?
    ensures Whereabouts(s.server.hist[ref].lines) == PlaceIn(s.server.world, ref)
    ensures AreSavesOf(PositionSaves(s.submitted, ref), ref, SavedPlaces(s.server.hist[ref].lines))
  {
    PlayersAreKnown(cfg, s, ref);
    PlayersStandWhereTheyWent(cfg, s, ref);
    PositionsAreSaved(cfg, s, ref);
    StillExpected(s.server.hist[ref].lines);
  }

  lemma PlayersAreKnown(cfg: Config, s: SystemState, ref: SessionRef)
    requires Running(cfg, s) && ref in s.server.world.players
    ensures ref in s.server.hist && IsLive(s.server, ref)
  {
    GenerationsAreSafe(cfg, s);
    assert SessionRef(ref.fd, s.server.sessions[ref.fd].generation) == ref;
  }

  lemma LastSaveReads(saves: seq<DbJob>, ref: SessionRef, lines: seq<string>, here: Place)
    requires AreSavesOf(saves, ref, SavedPlaces(lines)) && Whereabouts(lines) == Some(here)
    ensures LastSavedIff(saves, lines, here)
  {
    LastSavedIsLastEntered(lines);
    SavedFits(lines, |saves| - 1);
    LastReads(saves, ref, SavedPlaces(lines), LastEntered(lines).value, here);
  }

  // Every place that some lines have saved fits.
  lemma SavedFits(lines: seq<string>, i: nat)
    requires i < |SavedPlaces(lines)|
    ensures Fits(SavedPlaces(lines)[i])
  {
    PlacesFit(lines);
    assert SavedPlaces(lines)[i] in SavedPlaces(lines);
  }

  lemma LastReads(saves: seq<DbJob>, ref: SessionRef, places: seq<Place>, entered: Place, here: Place)
    requires AreSavesOf(saves, ref, places) && places != [] && places[|places| - 1] == entered && Fits(entered)
    ensures ReadsAs(saves[|saves| - 1], here) <==> entered == here
  {
    SaveReads(saves, ref, places, |saves| - 1);
  }

  // One of the saves of some places, read.
  lemma SaveReads(jobs: seq<DbJob>, ref: SessionRef, places: seq<Place>, i: nat)
    requires AreSavesOf(jobs, ref, places) && i < |jobs| && Fits(places[i])
    ensures jobs[i].operation == SavePosition
    ensures SaveOf(jobs[i]) == Some(Save(places[i].account, places[i].character, Position(places[i].x, places[i].y)))
  {
    assert IsSaveOf(jobs[i], ref, places[i]);
    PositionRoundTrip(jobs[i], places[i]);
  }

  // ---------- The last submitted position ----------

  // The position that the last of some submitted jobs about a character asks to save.
  function LastAsked(jobs: seq<DbJob>, account: string, character: string): Option<Write> {
    if jobs == [] then None
    else match SaveOf(jobs[|jobs| - 1])
      case Some(Save(a, c, Position(x, y))) =>
        if a == account && c == character then Some(Position(x, y))
        else LastAsked(jobs[..|jobs| - 1], account, character)
      case _ => LastAsked(jobs[..|jobs| - 1], account, character)
  }

  // No position save for the character failed.
  ghost predicate AllSaved(es: seq<Execution>, account: string, character: string) {
    forall i :: 0 <= i < |es| && AsksFor(es[i].job, account, character) ==> es[i].committed
  }

  predicate AsksFor(job: DbJob, account: string, character: string) {
    match SaveOf(job)
    case Some(Save(a, c, Position(_, _))) => a == account && c == character
    case _ => false
  }

  lemma {:induction false} LastAskedIsLastSaved(es: seq<Execution>, account: string, character: string)
    requires AllSaved(es, account, character)
    ensures LastPosition(es, account, character) == LastAsked(JobsOf(es), account, character)
  {
    if es == [] {
    } else {
      var most, last := es[..|es| - 1], es[|es| - 1];
      LastAskedIsLastSaved(most, account, character);
      assert JobsOf(es)[..|es| - 1] == JobsOf(most);
      assert AsksFor(last.job, account, character) ==> last.committed;
    }
  }

  // All submitted jobs are executed, and every worker waits for more.
  ghost predicate AllExecuted(s: SystemState) {
    s.server.jobs == [] && forall i :: 0 <= i < |s.workers| ==> s.workers[i] == Idle
  }

  // The character's row stands at the position submitted last, if any was.
  ghost predicate StandsAtLast(s: SystemState, account: string, character: string) {
    var row, asked := RowOf(s.tables, account, character), LastAsked(s.submitted, account, character);
    asked.Some? ==> row.Some? && asked == Some(Position(row.value.x, row.value.y))
  }

  /** With a single worker, once all submitted jobs are executed and no position save of the character
      failed, its row stands at the position submitted last. */
  lemma OneWorkerStoresTheLastPosition(
    cfg: Config, workers: nat, database: Database, s: SystemState, account: string, character: string)
    requires workers <= 1 && ReachableFrom(cfg, workers, database, s)
    requires ValidOrder(cfg.order) && DatabaseValid(database)
    requires AllExecuted(s) && AllSaved(s.executed, account, character)
    ensures StandsAtLast(s, account, character)
  {
    var steps :| Executes(cfg, Start(workers, database), steps) && s == After(cfg, Start(workers, database), steps);
    OneWorkerKeepsOrder(cfg, workers, database, steps);
    IdleHoldNothing(s.workers);
    assert s.submitted == JobsOf(s.executed);
    LastAskedIsLastSaved(s.executed, account, character);
    RowsAreTheLastSaves(cfg, workers, database, s, account, character);
    LastIsPosition(s.executed, account, character);
  }

  lemma {:induction false} IdleHoldNothing(workers: seq<Worker>)
    requires forall i :: 0 <= i < |workers| ==> workers[i] == Idle
    ensures InHand(workers) == []
  {
    if workers == [] {
    } else {
      IdleHoldNothing(workers[..|workers| - 1]);
    }
  }

  lemma {:induction false} LastIsPosition(es: seq<Execution>, account: string, character: string)
    ensures LastPosition(es, account, character).Some? ==> LastPosition(es, account, character).value.Position?
    ensures LastProgress(es, account, character).Some? ==> LastProgress(es, account, character).value.Progress?
  {
    if es == [] {
    } else {
      LastIsPosition(es[..|es| - 1], account, character);
    }
  }
}

/** What clients are told of their requests is what became of them in the tables. */
module Answers {
  import opened World
  import opened Server
  import opened ServerCore
  import opened ServerJobs
  import opened Tables
  import opened System
  import opened Storage

  // Some execution of the job with this ticket ended like this.
  ghost predicate Happened(es: seq<Execution>, c: DbCompletion) {
    exists k :: 0 <= k < |es| && es[k].job.ticket == c.ticket && es[k].committed == c.ok && es[k].line == c.line
  }

  ghost predicate TrueCompletions(es: seq<Execution>, cs: seq<DbCompletion>) {
    forall i :: 0 <= i < |cs| ==> Happened(es, cs[i])
  }

  ghost predicate TrueWorkers(es: seq<Execution>, workers: seq<Worker>) {
    forall i :: 0 <= i < |workers| && workers[i].Executed? ==>
      Happened(es, workers[i].completion)
  }

  // What a client was told, as the worker reported it.
  function CompletionFor(q: SessionRef, v: Verdict): DbCompletion {
    DbCompletion(Ticket(q, v.id, true), v.ok, v.line)
  }

  ghost predicate TrueVerdicts(es: seq<Execution>, hist: Histories) {
    forall q, v :: v in VerdictsIn(hist, q) ==> Happened(es, CompletionFor(q, v))
  }

  ghost predicate Truthful(s: SystemState) {
    TrueWorkers(s.executed, s.workers) && TrueCompletions(s.executed, s.completions) &&
    TrueVerdicts(s.executed, s.server.hist)
  }

  lemma StillHappened(es: seq<Execution>, e: Execution, c: DbCompletion)
    requires Happened(es, c)
    ensures Happened(es + [e], c)
  {
    var k :| 0 <= k < |es| && es[k].job.ticket == c.ticket && es[k].committed == c.ok && es[k].line == c.line;
    assert (es + [e])[k] == es[k];
  }

  lemma ExecuteKeepsTruth(cfg: Config, s: SystemState, i: nat, ok: bool, line: string)
    requires Truthful(s) && Enabled(cfg, s, System.Execute(i, ok, line))
    ensures Truthful(Next(cfg, s, System.Execute(i, ok, line)))
  {
    var e := Execution(s.workers[i].job, ok, line);
    var es := s.executed + [e];
    assert es[|s.executed|] == e;
    forall c | Happened(s.executed, c) ensures Happened(es, c) {
      StillHappened(s.executed, e, c);
    }
  }

  lemma PopKeepsTruth(cfg: Config, s: SystemState)
    requires SystemInv(cfg, s) && Truthful(s) && Enabled(cfg, s, PopCompletion)
    ensures Truthful(Next(cfg, s, PopCompletion))
  {
    PopIsOutstanding(cfg, s);
    var c := s.completions[0];
    OnCompletionAnswers(cfg, s.server, c);
    OneMoreVerdict(s.executed, s.server, OnCompletion(cfg, s.server, c).hist, c);
  }

  lemma OneMoreVerdict(es: seq<Execution>, server: ServerState, hist: Histories, c: DbCompletion)
    requires TrueVerdicts(es, server.hist) && Happened(es, c)
    requires forall q :: VerdictsIn(hist, q) == VerdictsIn(server.hist, q) + VerdictOf(server, c, q)
    ensures TrueVerdicts(es, hist)
  {
    forall q, v | v in VerdictsIn(hist, q) ensures Happened(es, CompletionFor(q, v)) {
      assert v in VerdictsIn(server.hist, q) || v in VerdictOf(server, c, q);
    }
  }

  lemma SameVerdictsKeepTruth(es: seq<Execution>, a: Histories, b: Histories)
    requires TrueVerdicts(es, a) && SameVerdicts(a, b)
    ensures TrueVerdicts(es, b)
  {
  }

  lemma ServeKeepsTruth(s: SystemState, server: ServerState)
    requires Truthful(s) && Grown(s.server, server)
    ensures Truthful(Serve(s, server))
  {
    SameVerdictsKeepTruth(s.executed, s.server.hist, server.hist);
  }

  lemma StepKeepsTruth(cfg: Config, s: SystemState, step: SystemStep)
    requires SystemInv(cfg, s) && Truthful(s) && Enabled(cfg, s, step) && ValidOrder(cfg.order)
    ensures Truthful(Next(cfg, s, step))
  {
    match step
    case Accept(fd) =>
      OnAcceptGrows(cfg, s.server, fd);
      ServeKeepsTruth(s, OnAccept(cfg, s.server, fd));
    case Receive(ref, chunk) =>
      OnRecvGrows(cfg, s.server, ref, chunk);
      ServeKeepsTruth(s, OnRecv(cfg, s.server, ref, chunk));
    case Sent(ref, payload, n) =>
      OnSentGrows(cfg, s.server, ref, payload, n);
      ServeKeepsTruth(s, OnSent(cfg, s.server, ref, payload, n));
    case PopCompletion => PopKeepsTruth(cfg, s);
    case Execute(i, ok, line) => ExecuteKeepsTruth(cfg, s, i, ok, line);
    case _ => SilentKeepsTruth(cfg, s, step);
  }

  lemma SilentKeepsTruth(cfg: Config, s: SystemState, step: SystemStep)
    requires Truthful(s) && Enabled(cfg, s, step)
    requires !step.Accept? && !step.Receive? && !step.Sent? && !step.PopCompletion? && !step.Execute?
    ensures Truthful(Next(cfg, s, step))
  {
  }

  lemma {:induction false} RunKeepsTruth(cfg: Config, workers: nat, database: Database, steps: seq<SystemStep>)
    requires Executes(cfg, Start(workers, database), steps) && ValidOrder(cfg.order)
    ensures Truthful(After(cfg, Start(workers, database), steps))
  {
    if steps == [] {
    } else {
      var most, step := steps[..|steps| - 1], steps[|steps| - 1];
      RunKeepsTruth(cfg, workers, database, most);
      StartInv(cfg, workers, database);
      RunKeepsInv(cfg, Start(workers, database), most);
      StepKeepsTruth(cfg, After(cfg, Start(workers, database), most), step);
    }
  }

  lemma {:induction false} VerdictAt(queued: seq<Reply>, i: nat)
    requires i < |queued| && queued[i].Answer?
    ensures Verdict(queued[i].id, queued[i].ok, queued[i].line) in Verdicts(queued)
  {
    if i < |queued| - 1 {
      VerdictAt(queued[..|queued| - 1], i);
    }
  }

  /** A client is told DONE only of a request of its own whose job a worker committed, and FAIL only of
      one whose job left the tables as they were, each with the very line that its execution reported;
      whatever happened to the descriptor in between, and in whatever order the workers finished. */
  lemma AnswersAreTrue(
    cfg: Config, workers: nat, database: Database, s: SystemState, ref: SessionRef, i: nat)
    requires ReachableFrom(cfg, workers, database, s) && ValidOrder(cfg.order)
    requires ref in s.server.hist && i < |s.server.hist[ref].queued| && s.server.hist[ref].queued[i].Answer?
    ensures var answer := s.server.hist[ref].queued[i];
            exists k :: 0 <= k < |s.executed| && s.executed[k].job.ticket == Ticket(ref, answer.id, true)
                        && s.executed[k].committed == answer.ok && s.executed[k].line == answer.line
    ensures s.tables == ExecuteAll(database, s.executed) && Legal(database, s.executed)
  {
    var steps :| Executes(cfg, Start(workers, database), steps) && s == After(cfg, Start(workers, database), steps);
    RunKeepsTruth(cfg, workers, database, steps);
    RunKeepsStored(cfg, workers, database, steps);
    var answer := s.server.hist[ref].queued[i];
    VerdictAt(s.server.hist[ref].queued, i);
    var v := Verdict(answer.id, answer.ok, answer.line);
    assert v in VerdictsIn(s.server.hist, ref);
    assert Happened(s.executed, CompletionFor(ref, v));
  }
}

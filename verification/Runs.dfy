/** What holds in every state that the server and its workers can reach, in every interleaving,
    while no exception has left the event loop. */
module Runs {
  import opened Decimal
  import opened Geometry
  import W = World
  import opened World
  import V = Views
  import opened Protocol
  import F = Framing
  import opened Server
  import opened ServerCore
  import opened ServerClosing
  import opened ServerSends
  import opened ServerLines
  import opened ServerPlaces
  import opened ServerViews
  import opened ServerRecv
  import opened ServerEvents
  import opened ServerSteps
  import opened ServerInvariant
  import opened ServerHandlers
  import opened ServerOutbound
  import opened ServerJobs
  import opened Tables
  import opened System

  ghost predicate Running(cfg: Config, s: SystemState) {
    Reachable(cfg, s) && ValidOrder(cfg.order) && !s.server.terminated
  }

  lemma RunningInv(cfg: Config, s: SystemState)
    requires Running(cfg, s)
    ensures Inv(cfg, s.server) && Conserved(s) && Recorded(s) && Polled(s) && NoLostWakeup(s)
  {
    ReachableInv(cfg, s);
  }

  lemma RunningLoop(cfg: Config, s: SystemState)
    requires Running(cfg, s)
    ensures Polled(s) && NoLostWakeup(s) && s.server.tokens[AcceptToken] == 1
  {
    RunningInv(cfg, s);
  }

  // ---------- Sending ----------

  /** Whatever the kernel takes of each send: the bytes sent on a connection, followed by those in its
      outbox, are the lines queued for it, in order; a connection closed by the flush has sent
      everything, and one that failed a prefix. */
  lemma BytesSentAreLinesQueued(cfg: Config, s: SystemState, ref: SessionRef)
    requires Running(cfg, s) && ref in s.server.hist
    ensures var h := s.server.hist[ref];
            var wire := Wire(cfg, h.queued);
            match h.ending
            case Open => IsLive(s.server, ref) && h.sent + Flatten(s.server.sessions[ref.fd].outbox) == wire
            case Flushed => h.sent == wire
            case Dropped => h.sent <= wire
  {
    RunningInv(cfg, s);
    assert ConnectionKnown(s.server.sessions, s.server.hist, s.server.nextGeneration, ref);
    assert EndedPipeline(cfg, s.server.hist[ref]);
    if s.server.hist[ref].ending == Open {
      OpenIsPrefix(cfg, s.server, ref);
    }
  }

  /** At every step boundary a session has something to send iff exactly one send of its own is in
      flight, whose payload is the front of its outbox; it has exactly one receive in flight iff it
      is not closing; and a closing one still has something to send. */
  lemma EverySessionIsServed(cfg: Config, s: SystemState, fd: int)
    requires Running(cfg, s) && fd in s.server.sessions
    ensures var session := s.server.sessions[fd];
            var ref := SessionRef(fd, session.generation);
            && (session.writeInFlight <==> session.outbox != [])
            && (forall p :: s.server.tokens[SendToken(ref, p)] ==
                  if session.outbox != [] && p == session.outbox[0] then 1 else 0)
            && s.server.tokens[RecvToken(ref)] == (if session.closeAfterFlush then 0 else 1)
            && (session.closeAfterFlush ==> session.outbox != [])
  {
    RunningInv(cfg, s);
    assert SessionKnown(s.server.sessions, s.server.hist, fd);
    var session := s.server.sessions[fd];
    var ref := SessionRef(fd, session.generation);
    assert RefOf(session) == ref && SendingSession(s.server.tokens, session);
    forall p ensures s.server.tokens[SendToken(ref, p)] ==
      if session.outbox != [] && p == session.outbox[0] then 1 else 0 {
      if SendToken(ref, p) in s.server.tokens {
        assert LiveIn(s.server.sessions, ref);
      }
    }
  }

  /** So nothing is ever stuck: the loop that waits can hear from every session, and a loop that
      takes database completions can go on. */
  lemma NobodyIsStuck(cfg: Config, s: SystemState)
    requires Running(cfg, s)
    ensures s.phase == Waiting ==>
              Enabled(cfg, s, Accept(None)) && forall fd :: fd in s.server.sessions ==> HeardFrom(cfg, s, fd)
    ensures s.phase != Waiting ==>
              Enabled(cfg, s, ReadCounter) || Enabled(cfg, s, ReadEmpty) ||
              Enabled(cfg, s, PopCompletion) || Enabled(cfg, s, Rearm)
  {
    RunningLoop(cfg, s);
    forall fd | fd in s.server.sessions && s.phase == Waiting ensures HeardFrom(cfg, s, fd) {
      SessionIsHeard(cfg, s, fd);
    }
  }

  lemma SessionIsHeard(cfg: Config, s: SystemState, fd: int)
    requires Running(cfg, s) && s.phase == Waiting && fd in s.server.sessions
    ensures HeardFrom(cfg, s, fd)
  {
    EverySessionIsServed(cfg, s, fd);
  }

  // Some completion of the session's can arrive.
  predicate HeardFrom(cfg: Config, s: SystemState, fd: int)
    requires fd in s.server.sessions
  {
    var session := s.server.sessions[fd];
    var ref := SessionRef(fd, session.generation);
    || Enabled(cfg, s, Receive(ref, ""))
    || (session.outbox != [] && Enabled(cfg, s, Sent(ref, session.outbox[0], |session.outbox[0]|)))
  }

  /** When a live session's send completes its outbox is never empty: that arm of the send handler
      is dead, and so is the guard against an unexpected completion of a closed session's send. */
  lemma SendsFindTheirLine(cfg: Config, s: SystemState, ref: SessionRef, payload: string, n: nat)
    requires Running(cfg, s) && Enabled(cfg, s, Sent(ref, payload, n)) && IsLive(s.server, ref)
    ensures var session := s.server.sessions[ref.fd];
            session.writeInFlight && session.outbox != [] && session.outbox[0] == payload && payload != ""
  {
    RunningInv(cfg, s);
    SendIsFront(cfg, s.server, ref, payload);
  }

  // ---------- Jobs and answers ----------

  lemma {:induction false} NumberedOnce(jobs: seq<DbJob>, t: Ticket)
    requires NumberedFrom(jobs, 1)
    ensures multiset(Tickets(jobs))[t] <= 1
    ensures t in multiset(Tickets(jobs)) ==> t.id <= |jobs|
  {
    if jobs == [] {
    } else {
      var most, last := jobs[..|jobs| - 1], jobs[|jobs| - 1];
      NumberedOnce(most, t);
      assert jobs == most + [last];
      TicketsConcat(most, [last]);
      assert Tickets([last]) == [last.ticket];
    }
  }

  /** Every submitted job is in exactly one place, once: in the queue, with a worker, among the
      completions, or answered; jobs start in the order of submission; ids are never reused; and each
      session counts exactly its requests that are not yet answered. */
  lemma JobsAreConserved(cfg: Config, s: SystemState)
    requires Running(cfg, s)
    ensures multiset(Tickets(s.submitted)) == InPipeline(s) + multiset(s.popped)
    ensures forall t :: InPipeline(s)[t] + multiset(s.popped)[t] <= 1
    ensures s.submitted == s.started + s.server.jobs
    ensures forall i :: 0 <= i < |s.submitted| ==> s.submitted[i].ticket.id == i + 1
    ensures forall fd :: fd in s.server.sessions ==>
              s.server.sessions[fd].pendingDb == |AwaitedBy(s, SessionRef(fd, s.server.sessions[fd].generation))|
  {
    RunningConserves(cfg, s);
    RunningRecords(cfg, s);
    OncePerTicket(s);
    forall fd | fd in s.server.sessions
      ensures s.server.sessions[fd].pendingDb == |AwaitedBy(s, SessionRef(fd, s.server.sessions[fd].generation))|
    {
      SessionsCount(cfg, s, fd);
    }
  }

  lemma RunningConserves(cfg: Config, s: SystemState)
    requires Running(cfg, s)
    ensures Conserved(s)
  {
    RunningInv(cfg, s);
  }

  lemma SessionsCount(cfg: Config, s: SystemState, fd: int)
    requires Running(cfg, s) && fd in s.server.sessions
    ensures s.server.sessions[fd].pendingDb == |AwaitedBy(s, SessionRef(fd, s.server.sessions[fd].generation))|
  {
    RunningInv(cfg, s);
    assert SessionKnown(s.server.sessions, s.server.hist, fd);
    AwaitedIsOwed(s, RefOf(s.server.sessions[fd]));
  }

  lemma AwaitedIsOwed(s: SystemState, ref: SessionRef)
    requires Conserved(s)
    ensures AwaitedBy(s, ref) == OwedTo(s.server.outstanding, ref)
  {
  }

  lemma OncePerTicket(s: SystemState)
    requires multiset(Tickets(s.submitted)) == InPipeline(s) + multiset(s.popped) && NumberedFrom(s.submitted, 1)
    ensures forall t :: InPipeline(s)[t] + multiset(s.popped)[t] <= 1
  {
    forall t ensures InPipeline(s)[t] + multiset(s.popped)[t] <= 1 {
      NumberedOnce(s.submitted, t);
    }
  }

  // The requests of a connection that are queued, executing, or completed and not yet popped.
  function AwaitedBy(s: SystemState, ref: SessionRef): set<Ticket> {
    set t | t in InPipeline(s) && t.notify && t.ref == ref
  }

  predicate HasJob(worker: Worker) {
    worker.Executing? || worker.Executed?
  }

  /** Once the queue is empty, the workers are idle and the completions are taken, every job that was
      ever submitted has been answered exactly once, and no session awaits anything. */
  lemma QuietMeansAllAnswered(cfg: Config, s: SystemState)
    requires Running(cfg, s) && s.server.jobs == [] && s.completions == []
    requires forall i :: 0 <= i < |s.workers| ==> !HasJob(s.workers[i])
    ensures multiset(s.popped) == multiset(Tickets(s.submitted))
    ensures forall fd :: fd in s.server.sessions ==> s.server.sessions[fd].pendingDb == 0
  {
    JobsAreConserved(cfg, s);
    NoneExecuting(s.workers);
    assert InPipeline(s) == multiset{};
    forall fd | fd in s.server.sessions ensures s.server.sessions[fd].pendingDb == 0 {
      assert AwaitedBy(s, SessionRef(fd, s.server.sessions[fd].generation)) == {};
    }
  }

  lemma {:induction false} NoneExecuting(workers: seq<Worker>)
    requires forall i :: 0 <= i < |workers| ==> !HasJob(workers[i])
    ensures WorkerTickets(workers) == multiset{}
  {
    if workers == [] {
    } else {
      NoneExecuting(workers[..|workers| - 1]);
    }
  }

  /** A request id is announced at most once, to one connection; at most one answer to it is queued,
      after the announcement and on the same connection, whatever happened to the descriptor and in
      whatever order the workers finished; and while the connection is open an announced request has
      been answered iff it is no longer on its way through the workers. */
  lemma RepliesMatchRequests(cfg: Config, s: SystemState)
    requires Running(cfg, s)
    ensures var hist := s.server.hist;
            && (forall r, i, q, j, id: nat :: PendingAt(hist, r, i, id) && PendingAt(hist, q, j, id) ==>
                  r == q && i == j)
            && (forall r, i, q, j, id: nat :: AnswerAt(hist, r, i, id) && AnswerAt(hist, q, j, id) ==> r == q && i == j)
            && (forall r, j, id: nat :: AnswerAt(hist, r, j, id) ==>
                  exists i :: 0 <= i < j && PendingAt(hist, r, i, id))
            && (forall r, i, id: nat :: PendingAt(hist, r, i, id) && hist[r].ending == Open ==>
                  (Answered(hist, r, id) <==> Ticket(r, id, true) !in InPipeline(s)))
  {
    RunningInv(cfg, s);
    var hist := s.server.hist;
    forall r, j, id: nat | AnswerAt(hist, r, j, id) ensures exists i :: 0 <= i < j && PendingAt(hist, r, i, id) {
      assert PendingBefore(hist, r, j, id);
    }
    forall r, i, id: nat | PendingAt(hist, r, i, id) && hist[r].ending == Open
      ensures Answered(hist, r, id) <==> Ticket(r, id, true) !in InPipeline(s)
    {
      var t := Ticket(r, id, true);
      assert t in InPipeline(s) <==> t in s.server.outstanding;
      if Answered(hist, r, id) {
        var j :| AnswerAt(hist, r, j, id);
        assert t !in s.server.outstanding;
      }
    }
  }

  /** The requests announced to a connection are, in order and each once, the jobs submitted for it as
      requests: none goes unannounced, and nothing else is announced. */
  lemma AnnouncementsAreRequests(cfg: Config, s: SystemState, ref: SessionRef)
    requires Running(cfg, s) && ref in s.server.hist
    ensures Announced(s.server.hist[ref].queued) == RequestsOf(s.submitted, ref)
    ensures forall i :: 0 <= i < |s.submitted| ==> WellFormed(s.submitted[i])
  {
    RunningRecords(cfg, s);
    RecordedIs(s.server.hist, s.submitted, ref);
  }

  lemma RunningRecords(cfg: Config, s: SystemState)
    requires Running(cfg, s)
    ensures Recorded(s)
  {
    RunningInv(cfg, s);
  }

  // What the histories record from nothing is what was submitted.
  lemma RecordedIs(hist: Histories, jobs: seq<DbJob>, q: SessionRef)
    requires MoreRecords(map[], hist, jobs)
    ensures RecordIn(hist, q) == RecordOf(jobs, q)
  {
    assert RecordIn(hist, q) == Plus(RecordIn(map[], q), RecordOf(jobs, q));
    var none := RecordOf(jobs, q);
    assert [] + none.saves == none.saves && [] + none.requests == none.requests;
  }

  // ---------- Generations ----------

  /** No two connections ever share a generation, every generation in use was handed out, sessions are
      exactly the open descriptors, and players are live sessions. */
  lemma GenerationsAreSafe(cfg: Config, s: SystemState)
    requires Running(cfg, s)
    ensures s.server.sessions.Keys == s.server.openFds
    ensures forall a, b :: a in s.server.hist && b in s.server.hist && a.generation == b.generation ==> a == b
    ensures forall r :: r in s.server.hist ==> r.generation < s.server.nextGeneration
    ensures forall fd :: fd in s.server.sessions ==> SessionRef(fd, s.server.sessions[fd].generation) in s.server.hist
    ensures forall t :: t in s.server.tokens && (t.RecvToken? || t.SendToken?) ==> t.ref in s.server.hist
    ensures forall t :: t in InPipeline(s) ==> t.ref in s.server.hist
    ensures forall r :: r in s.server.world.players ==> IsLive(s.server, r)
  {
    RunningInv(cfg, s);
    forall r | r in s.server.hist ensures r.generation < s.server.nextGeneration {
      assert ConnectionKnown(s.server.sessions, s.server.hist, s.server.nextGeneration, r);
    }
    forall fd | fd in s.server.sessions ensures SessionRef(fd, s.server.sessions[fd].generation) in s.server.hist {
      assert SessionKnown(s.server.sessions, s.server.hist, fd);
    }
    forall t | t in InPipeline(s) ensures t.ref in s.server.hist {
      assert t in s.server.outstanding;
    }
  }

  /** An accept always inserts its session, under a generation no connection had before. */
  lemma AcceptInserts(cfg: Config, s: SystemState, fd: int)
    requires Running(cfg, s) && Enabled(cfg, s, Accept(Some(fd)))
    ensures var ref := SessionRef(fd, s.server.nextGeneration);
            && fd !in s.server.sessions && ref !in s.server.hist
            && IsLive(Next(cfg, s, Accept(Some(fd))).server, ref)
  {
    RunningInv(cfg, s);
    AcceptIsFresh(cfg, s.server, fd);
    AcceptIsConnect(cfg, s.server, fd);
    var ref := SessionRef(fd, s.server.nextGeneration);
    QueueKeepsSessions(cfg, Connected(Consume(s.server, AcceptToken), fd), ref, Hello);
  }

  // The connection that a completion is about.
  predicate IsAbout(s: SystemState, step: SystemStep, ref: SessionRef) {
    match step
    case Receive(r, _) => r == ref
    case Sent(r, _, _) => r == ref
    case PopCompletion => s.completions != [] && s.completions[0].ticket.ref == ref
    case _ => false
  }

  // What is in flight for a connection, and the answers it is owed, are the same.
  ghost predicate SameInFlight(s: ServerState, r: ServerState, q: SessionRef) {
    && (forall t: Token :: (t.RecvToken? || t.SendToken?) && t.ref == q ==> r.tokens[t] == s.tokens[t])
    && OwedTo(r.outstanding, q) == OwedTo(s.outstanding, q)
  }

  /** A completion for a connection that is gone leaves every session and the world as they were; and
      whoever is live, the new owner of its descriptor too, keeps its sends and receives in flight and
      the answers it is owed. */
  lemma LateCompletionsChangeNothing(cfg: Config, s: SystemState, step: SystemStep, ref: SessionRef)
    requires Enabled(cfg, s, step) && IsAbout(s, step, ref) && !IsLive(s.server, ref)
    ensures var r := Next(cfg, s, step).server;
            && r == s.server.(tokens := r.tokens, outstanding := r.outstanding)
            && forall q :: IsLive(s.server, q) ==> SameInFlight(s.server, r, q)
  {
    var r := Next(cfg, s, step).server;
    forall q | IsLive(s.server, q) ensures SameInFlight(s.server, r, q) {
      assert q != ref;
      if step.PopCompletion? {
        assert s.completions[0].ticket !in OwedTo(s.server.outstanding, q);
      }
    }
  }

  // ---------- Wakeups ----------

  /** Whatever the workers and the loop do, also when the counter saturates: a completion that waits
      while the loop sleeps will wake it, for the eventfd is readable or a worker is about to write it. */
  lemma WakeupsAreNotLost(cfg: Config, s: SystemState)
    requires Reachable(cfg, s) && ValidOrder(cfg.order) && s.completions != [] && s.phase == Waiting
    ensures s.counter > 0 || SomeoneSignals(s.workers)
    ensures !s.server.terminated ==>
      Enabled(cfg, s, Wake) || exists i :: 0 <= i < |s.workers| && Enabled(cfg, s, Signal(i))
  {
    ReachableLoop(cfg, s);
    if s.counter == 0 && !s.server.terminated {
      var i :| 0 <= i < |s.workers| && s.workers[i] == Signalling;
      assert Enabled(cfg, s, Signal(i));
    }
  }

  lemma ReachableLoop(cfg: Config, s: SystemState)
    requires Reachable(cfg, s) && ValidOrder(cfg.order)
    ensures NoLostWakeup(s) && (!s.server.terminated ==> Polled(s))
  {
    ReachableInv(cfg, s);
  }

  // A step of the event loop that serves the database.
  predicate IsDraining(step: SystemStep) {
    step.Wake? || step.ReadCounter? || step.ReadEmpty? || step.PopCompletion? || step.Rearm?
  }

  // How far the loop is from having taken all completions.
  function ToDrain(s: SystemState): nat {
    |s.completions| +
    match s.phase
    case Waiting => 4
    case Draining => 2 + if s.counter > 0 then 1 else 0
    case Popping => 1
  }

  /** As long as a completion is left, the loop can take a step towards taking it; unless it waits for a
      counter that is still zero, and then some worker is about to make it positive. */
  lemma DrainingMakesProgress(cfg: Config, s: SystemState)
    requires Running(cfg, s) && s.completions != []
    ensures s.phase != Waiting || s.counter > 0 ==>
              exists step :: IsDraining(step) && !step.Rearm? && Enabled(cfg, s, step)
    ensures s.phase == Waiting && s.counter == 0 ==> exists i :: 0 <= i < |s.workers| && Enabled(cfg, s, Signal(i))
  {
    RunningLoop(cfg, s);
    if s.phase == Waiting && s.counter == 0 {
      var i :| 0 <= i < |s.workers| && s.workers[i] == Signalling;
      assert Enabled(cfg, s, Signal(i));
    } else {
      var step :=
        match s.phase
        case Waiting => Wake
        case Draining => if s.counter > 0 then ReadCounter else ReadEmpty
        case Popping => PopCompletion;
      assert IsDraining(step) && Enabled(cfg, s, step);
    }
  }

  /** And every such step brings it nearer, so without the workers a bounded number of them takes all. */
  lemma DrainingStepsDecrease(cfg: Config, s: SystemState, step: SystemStep)
    requires Enabled(cfg, s, step) && IsDraining(step) && !step.Rearm?
    ensures ToDrain(Next(cfg, s, step)) < ToDrain(s)
  {
  }

  lemma RunMore(cfg: Config, s: SystemState, steps: seq<SystemStep>, step: SystemStep)
    requires Executes(cfg, s, steps) && Enabled(cfg, After(cfg, s, steps), step)
    ensures Executes(cfg, s, steps + [step])
    ensures After(cfg, s, steps + [step]) == Next(cfg, After(cfg, s, steps), step)
  {
    assert (steps + [step])[..|steps|] == steps;
  }

  function Pops(n: nat): seq<SystemStep> {
    seq(n, _ => PopCompletion)
  }

  lemma {:induction false} DeliverGoesOn(cfg: Config, s: ServerState, events: seq<WorldEvent>)
    ensures Deliver(cfg, s, events).terminated == s.terminated
  {
    if events == [] {
    } else {
      DeliverGoesOn(cfg, s, events[..|events| - 1]);
    }
  }

  lemma CloseGoesOn(cfg: Config, s: ServerState, fd: int, ending: Ending)
    ensures CloseSession(cfg, s, fd, ending).terminated == s.terminated
  {
    if fd in s.sessions {
      var left := W.Leave(s.world, cfg.order, RefOf(s.sessions[fd]));
      DeliverGoesOn(cfg, s.(world := left.world), left.events);
    }
  }

  lemma CompletionGoesOn(cfg: Config, s: ServerState, c: DbCompletion)
    ensures OnCompletion(cfg, s, c).terminated == s.terminated
  {
    var s0 := s.(outstanding := s.outstanding - {c.ticket});
    var ref := c.ticket.ref;
    if c.ticket.notify && SessionMatches(s0, ref) {
      var session := s0.sessions[ref.fd];
      var s1 :=
        if session.pendingDb > 0 then
          s0.(sessions := s0.sessions[ref.fd := session.(pendingDb := session.pendingDb - 1)])
        else s0;
      AnswerGoesOn(cfg, s1, ref, Answer(c.ticket.id, c.ok, c.line));
    }
  }

  lemma AnswerGoesOn(cfg: Config, s: ServerState, ref: SessionRef, reply: Reply)
    ensures MaybeCloseAfterFlush(cfg, QueueResponse(cfg, s, ref, reply), ref.fd).terminated == s.terminated
  {
    CloseGoesOn(cfg, QueueResponse(cfg, s, ref, reply), ref.fd, Flushed);
  }

  // The loop has taken the first `n` of some completions, starting from some server state.
  ghost predicate HasTaken(cfg: Config, r: SystemState, server: ServerState, cs: seq<DbCompletion>, n: nat) {
    && n <= |cs|
    && !r.server.terminated && r.phase == Popping && r.completions == cs[n..]
    && r.server == CompleteAll(cfg, server, cs[..n])
  }

  lemma OnePop(cfg: Config, r: SystemState, server: ServerState, cs: seq<DbCompletion>, n: nat)
    requires HasTaken(cfg, r, server, cs, n) && n < |cs|
    ensures Enabled(cfg, r, PopCompletion) && HasTaken(cfg, Next(cfg, r, PopCompletion), server, cs, n + 1)
  {
    assert r.completions[0] == cs[n];
    PopTakes(cfg, r);
    FoldUpTo(Completing(cfg), server, cs, n + 1);
  }

  lemma PopsGrow(steps: seq<SystemStep>, n: nat)
    ensures n == 0 ==> steps + Pops(n) == steps
    ensures n > 0 ==> steps + Pops(n) == (steps + Pops(n - 1)) + [PopCompletion]
  {
  }

  // The loop goes on from a run that got it to taking completions.
  lemma {:induction false} PopsTake(cfg: Config, s: SystemState, steps: seq<SystemStep>, n: nat)
    requires Executes(cfg, s, steps) && n <= |After(cfg, s, steps).completions|
    requires !After(cfg, s, steps).server.terminated && After(cfg, s, steps).phase == Popping
    ensures Executes(cfg, s, steps + Pops(n))
    ensures HasTaken(cfg, After(cfg, s, steps + Pops(n)),
                     After(cfg, s, steps).server, After(cfg, s, steps).completions, n)
  {
    PopsGrow(steps, n);
    if n == 0 {
    } else {
      PopsTake(cfg, s, steps, n - 1);
      var q := After(cfg, s, steps);
      OneMorePop(cfg, s, steps + Pops(n - 1), q.server, q.completions, n - 1);
    }
  }

  lemma OneMorePop(
    cfg: Config, s: SystemState, steps: seq<SystemStep>, server: ServerState, cs: seq<DbCompletion>, n: nat)
    requires Executes(cfg, s, steps) && HasTaken(cfg, After(cfg, s, steps), server, cs, n) && n < |cs|
    ensures Executes(cfg, s, steps + [PopCompletion])
    ensures HasTaken(cfg, After(cfg, s, steps + [PopCompletion]), server, cs, n + 1)
  {
    OnePop(cfg, After(cfg, s, steps), server, cs, n);
    RunMore(cfg, s, steps, PopCompletion);
  }

  lemma FoldUpTo<S, E>(f: (S, E) -> S, s: S, es: seq<E>, n: nat)
    requires 0 < n <= |es|
    ensures Fold(f, s, es[..n]) == f(Fold(f, s, es[..n - 1]), es[n - 1])
    ensures es[n - 1..][1..] == es[n..]
  {
    assert es[..n] == es[..n - 1] + [es[n - 1]];
    FoldOneMore(f, s, es[..n - 1], es[n - 1]);
  }

  lemma PopTakes(cfg: Config, s: SystemState)
    requires Enabled(cfg, s, PopCompletion)
    ensures var r := Next(cfg, s, PopCompletion);
            && !r.server.terminated && r.phase == Popping && r.completions == s.completions[1..]
            && r.server == Completing(cfg)(s.server, s.completions[0])
  {
    CompletionGoesOn(cfg, s.server, s.completions[0]);
  }

  // What the handler of the eventfd does when nothing interleaves with it.
  function Drained(cfg: Config, s: SystemState): ServerState {
    Polling(CompleteAll(cfg, Consume(s.server, DatabaseToken), s.completions))
  }

  function WakeUp(): seq<SystemStep> {
    [] + [Wake] + [ReadCounter] + [ReadEmpty]
  }

  lemma WokenToPopping(cfg: Config, s: SystemState)
    requires Enabled(cfg, s, Wake)
    ensures Executes(cfg, s, WakeUp())
    ensures After(cfg, s, WakeUp()) == s.(server := Consume(s.server, DatabaseToken), counter := 0, phase := Popping)
  {
    RunMore(cfg, s, [], Wake);
    RunMore(cfg, s, [] + [Wake], ReadCounter);
    RunMore(cfg, s, [] + [Wake] + [ReadCounter], ReadEmpty);
  }

  /** The handler of the eventfd, which the object runs as one call, is a run of the loop's small steps:
      from any state that wakes it, the loop alone takes every completion and polls again. */
  lemma TheHandlerIsItsSteps(cfg: Config, s: SystemState)
    requires Enabled(cfg, s, Wake)
    ensures var steps := WakeUp() + Pops(|s.completions|) + [Rearm];
            && Executes(cfg, s, steps)
            && After(cfg, s, steps).server == Drained(cfg, s)
            && After(cfg, s, steps).completions == [] && After(cfg, s, steps).phase == Waiting
  {
    WokenToPopping(cfg, s);
    PopsTake(cfg, s, WakeUp(), |s.completions|);
    RunMore(cfg, s, WakeUp() + Pops(|s.completions|), Rearm);
    assert s.completions[..|s.completions|] == s.completions;
  }

  // ---------- Sessions and the world ----------

  /** Every player is a live session and stands where its own lines put it; a connection that ended,
      or whose lines say it left, is nowhere. */
  lemma PlayersStandWhereTheyWent(cfg: Config, s: SystemState, ref: SessionRef)
    requires Running(cfg, s) && ref in s.server.hist
    ensures var h := s.server.hist[ref];
            PlaceIn(s.server.world, ref) == if IsLive(s.server, ref) then Whereabouts(h.lines) else None
  {
    RunningInv(cfg, s);
    assert StandsRight(s.server.world, s.server.hist[ref], ref);
    assert ConnectionKnown(s.server.sessions, s.server.hist, s.server.nextGeneration, ref);
    if IsLive(s.server, ref) {
      OpenIsPrefix(cfg, s.server, ref);
    }
  }

  /** After its QUIT a connection handles no further line, so it never enters the world again. */
  lemma QuitIsFinal(cfg: Config, s: SystemState, ref: SessionRef, i: nat)
    requires Running(cfg, s) && ref in s.server.hist
    requires i < |s.server.hist[ref].lines| && IsQuit(s.server.hist[ref].lines[i])
    ensures i == |s.server.hist[ref].lines| - 1
    ensures ref !in s.server.world.players
  {
    var h := s.server.hist[ref];
    LinesAreFramed(cfg, s, ref);
    F.NothingAfterTheLast(h.chunks, cfg.maxLine, QuitLine());
    assert QuitLine()(h.lines[i]);
    PlayersStandWhereTheyWent(cfg, s, ref);
    QuitLeaves(Whereabouts(h.lines[..|h.lines| - 1]), h.lines[i]);
  }

  lemma QuitLeaves(p: Option<Place>, line: string)
    requires IsQuit(line)
    ensures PlaceAfter(p, line) == None
  {
  }

  // Whatever events the step delivers, whoever they are for is live when they are delivered.
  ghost predicate StepHeard(cfg: Config, s: SystemState, step: SystemStep)
    requires Enabled(cfg, s, step)
  {
    match step
    case Receive(ref, chunk) => RecvHeard(cfg, s.server, ref, chunk)
    case Sent(ref, _, _) => IsLive(s.server, ref) ==> OpHeard(cfg, s.server, DoLeave(ref))
    case _ => Next(cfg, s, step).server.world == s.server.world
  }

  /** No world event is ever discarded: not of any line of a chunk, each handled in the state that the
      lines before it left, and not of a session's last departure; the other steps deliver none. */
  lemma EventsReachLiveSessions(cfg: Config, s: SystemState, step: SystemStep)
    requires Running(cfg, s) && Enabled(cfg, s, step)
    ensures StepHeard(cfg, s, step)
  {
    RunningInv(cfg, s);
    match step
    case Receive(ref, chunk) => RecvIsHeard(cfg, s.server, ref, chunk);
    case Sent(ref, _, _) =>
      if IsLive(s.server, ref) {
        OpIsHeard(cfg, s.server, DoLeave(ref));
      }
    case PopCompletion =>
      PopIsOutstanding(cfg, s);
      CompletionKeepsWorld(cfg, s.server, s.completions[0]);
    case _ => OtherStepsKeepWorld(cfg, s, step);
  }

  lemma OtherStepsKeepWorld(cfg: Config, s: SystemState, step: SystemStep)
    requires Enabled(cfg, s, step) && !step.Receive? && !step.Sent? && !step.PopCompletion?
    ensures Next(cfg, s, step).server.world == s.server.world
  {
  }

  lemma CompletionKeepsWorld(cfg: Config, s: ServerState, c: DbCompletion)
    requires Core(cfg, s) && c.ticket in s.outstanding
    ensures OnCompletion(cfg, s, c).world == s.world
  {
    if c.ticket.notify && IsLive(s, c.ticket.ref) {
      AnsweredKeepsCore(cfg, s, c);
      OpenIsPrefix(cfg, s, c.ticket.ref);
    }
  }

  /** Clients that have entered and whose own moves since brought nobody into or out of range have
      been told exactly the players around them, each where it is now. */
  lemma SettledClientsSeeTheTruth(cfg: Config, s: SystemState, ref: SessionRef)
    requires Running(cfg, s) && ref in s.server.world.players
    requires ref in s.server.hist && s.server.hist[ref].settled
    ensures ViewOf(s.server.hist[ref]) == V.TrueView(s.server.world, ref)
  {
    RunningInv(cfg, s);
    assert SeesRight(s.server.world, s.server.hist[ref], ref);
  }

  /** In particular a client whose moves since its last ENTER all stayed in the sector it entered. */
  lemma SteadyClientsSeeTheTruth(cfg: Config, s: SystemState, ref: SessionRef)
    requires Running(cfg, s) && ref in s.server.world.players
    requires ref in s.server.hist && Steady(s.server.hist[ref].lines)
    ensures ViewOf(s.server.hist[ref]) == V.TrueView(s.server.world, ref)
  {
    SteadyIsSettled(cfg, s, ref);
    SettledClientsSeeTheTruth(cfg, s, ref);
  }

  /** And once the outbox is empty, so that every byte of those lines was sent, so does the client itself. */
  lemma SentClientsSeeTheTruth(cfg: Config, s: SystemState, ref: SessionRef)
    requires Running(cfg, s) && ref in s.server.world.players && IsLive(s.server, ref)
    requires ref in s.server.hist && s.server.hist[ref].settled && s.server.sessions[ref.fd].outbox == []
    ensures s.server.hist[ref].sent == Wire(cfg, s.server.hist[ref].queued)
    ensures ViewOf(s.server.hist[ref]) == V.TrueView(s.server.world, ref)
  {
    BytesSentAreLinesQueued(cfg, s, ref);
    LiveIsOpen(cfg, s, ref);
    SettledClientsSeeTheTruth(cfg, s, ref);
  }

  lemma LiveIsOpen(cfg: Config, s: SystemState, ref: SessionRef)
    requires Running(cfg, s) && IsLive(s.server, ref)
    ensures ref in s.server.hist && s.server.hist[ref].ending == Open
  {
    RunningInv(cfg, s);
    OpenIsPrefix(cfg, s.server, ref);
  }

  lemma SteadyIsSettled(cfg: Config, s: SystemState, ref: SessionRef)
    requires Running(cfg, s) && ref in s.server.world.players
    requires ref in s.server.hist && Steady(s.server.hist[ref].lines)
    ensures s.server.hist[ref].settled
  {
    RunningInv(cfg, s);
    assert StandsRight(s.server.world, s.server.hist[ref], ref);
  }

  /** The position saves submitted for a connection are, in order, those its lines call for and, once
      it has ended, one for the place it was at, if it still was anywhere: none is missing or doubled. */
  lemma PositionsAreSaved(cfg: Config, s: SystemState, ref: SessionRef)
    requires Running(cfg, s) && ref in s.server.hist
    ensures var h := s.server.hist[ref];
            AreSavesOf(PositionSaves(s.submitted, ref), ref, ExpectedSaves(h.lines, !IsLive(s.server, ref)))
  {
    RunningInv(cfg, s);
    var h := s.server.hist[ref];
    assert SavedRight(h, ref);
    assert RecordIn(s.server.hist, ref) == Plus(RecordIn(map[], ref), RecordOf(s.submitted, ref));
    assert h.saves == PositionSaves(s.submitted, ref);
    assert ConnectionKnown(s.server.sessions, s.server.hist, s.server.nextGeneration, ref);
    if IsLive(s.server, ref) {
      OpenIsPrefix(cfg, s.server, ref);
    }
  }

  /** The test for an empty account on the way out is the test whether the session was in the world. */
  lemma EmptyAccountMeansAbsent(cfg: Config, s: SystemState, ref: SessionRef)
    requires Running(cfg, s)
    ensures SnapshotOf(s.server.world, ref).account == "" <==> ref !in s.server.world.players
  {
    RunningInv(cfg, s);
  }

  // ---------- Lines ----------

  lemma LinesAreFramed(cfg: Config, s: SystemState, ref: SessionRef)
    requires Running(cfg, s) && ref in s.server.hist
    ensures s.server.hist[ref].lines == FramerOf(cfg, s.server.hist[ref]).lines
    ensures ChunksRight(cfg, s.server.hist[ref])
  {
    RunningInv(cfg, s);
  }

  /** However the kernel cuts a connection's bytes: the lines handled are exactly those of the stream
      received, up to the first QUIT, with or without an overlong line; what a live session still
      buffers are exactly the bytes that follow them; it stops reading iff there is a QUIT or an
      unfinished line beyond the limit; while it reads its buffer is the unfinished line, within the
      limit; and every line handled is shorter than the limit plus the receive buffer. */
  lemma LinesAreThoseOfTheStream(cfg: Config, s: SystemState, ref: SessionRef)
    requires Running(cfg, s) && ref in s.server.hist
    ensures var h := s.server.hist[ref];
            var stream := F.Concat(h.chunks);
            && h.lines == F.UpToLast(F.Lines(stream), QuitLine())
            && (IsLive(s.server, ref) ==>
                  var session := s.server.sessions[ref.fd];
                  && stream == F.Unlines(h.lines) + session.input
                  && (session.closeAfterFlush <==> F.Stops(stream, cfg.maxLine, QuitLine()))
                  && (!session.closeAfterFlush ==>
                        && h.lines == F.Lines(stream) && session.input == F.Tail(stream)
                        && '\n' !in session.input && |session.input| <= cfg.maxLine))
            && (forall line :: line in h.lines ==> |line| < cfg.maxLine + cfg.recvBuffer)
  {
    var h := s.server.hist[ref];
    LinesAreFramed(cfg, s, ref);
    F.AllRead(h.chunks, cfg.maxLine, QuitLine());
    F.HandledLinesAreShort(h.chunks, cfg.maxLine, cfg.recvBuffer, QuitLine());
    if IsLive(s.server, ref) {
      LiveIsFramed(cfg, s, ref);
      F.CutLosesNothing(F.Concat(h.chunks));
    }
  }

  lemma LiveIsFramed(cfg: Config, s: SystemState, ref: SessionRef)
    requires Running(cfg, s) && IsLive(s.server, ref)
    ensures ref in s.server.hist && FramedSession(cfg, s.server.sessions[ref.fd], s.server.hist[ref])
  {
    RunningInv(cfg, s);
    assert SessionKnown(s.server.sessions, s.server.hist, ref.fd);
    assert RefOf(s.server.sessions[ref.fd]) == ref;
  }

  // The lines that a chunk completes, up to a QUIT.
  function NewLines(s: SystemState, ref: SessionRef, chunk: string): seq<string> {
    if IsLive(s.server, ref) then F.TakeLines(s.server.sessions[ref.fd].input + chunk, QuitLine()).lines else []
  }

  ghost predicate SomeOutOfRange(lines: seq<string>) {
    exists line :: line in lines && IsOutOfRange(line)
  }

  lemma LettersAreNoQuit(n: nat)
    ensures !IsQuit(F.Letters(n))
  {
    var line := F.Letters(n);
    assert StripReturn(line) == line;
    if n > 0 {
      assert IsWord(line);
      FirstWord(line, "");
      assert line + "" == line && Words("") == [];
      assert Upper(line)[0] == 'A';
    }
  }

  /** With this server's own QUIT: whatever its limit, there is a stream of one line that it handles when
      its end arrives in one chunk, and refuses when it arrives in two. */
  lemma ChunksMatterHere(limit: nat)
    ensures var a, b := F.SingleLetters(limit) + ["a\n"], F.SingleLetters(limit) + ["a"] + ["\n"];
            && F.Concat(a) == F.Concat(b)
            && F.FeedAll(a, limit, QuitLine()) == F.Framer([F.Letters(limit + 1)], "", F.Status.Reading)
            && F.FeedAll(b, limit, QuitLine()) == F.Framer([], F.Letters(limit + 1), F.TooLong)
  {
    LettersAreNoQuit(limit + 1);
    F.ChunksMatterForLongLines(limit, QuitLine());
  }

  /** An exception leaves the event loop exactly when a received chunk completes a line, not after a
      QUIT, that the parser accepts and whose numbers do not fit 32 bits. */
  lemma TerminatesIff(cfg: Config, s: SystemState, step: SystemStep)
    requires Running(cfg, s) && Enabled(cfg, s, step)
    ensures Next(cfg, s, step).server.terminated <==>
            step.Receive? && step.chunk != "" && SomeOutOfRange(NewLines(s, step.ref, step.chunk))
  {
    if step.Receive? {
      ReceiveTerminatesIff(cfg, s, step.ref, step.chunk);
    } else {
      ReachableInv(cfg, s);
      OthersGoOn(cfg, s, step);
    }
  }

  lemma ReceiveTerminatesIff(cfg: Config, s: SystemState, ref: SessionRef, chunk: string)
    requires Running(cfg, s) && Enabled(cfg, s, Receive(ref, chunk))
    ensures OnRecv(cfg, s.server, ref, chunk).terminated <==>
            chunk != "" && SomeOutOfRange(NewLines(s, ref, chunk))
  {
    if IsLive(s.server, ref) {
      RunningInv(cfg, s);
      RecvTerminatesIff(cfg, s.server, ref, chunk);
    }
  }

  lemma OthersGoOn(cfg: Config, s: SystemState, step: SystemStep)
    requires SystemInv(cfg, s) && Enabled(cfg, s, step) && !step.Receive? && ValidOrder(cfg.order)
    ensures !Next(cfg, s, step).server.terminated
  {
    match step
    case Accept(fd) => OnAcceptKeepsInv(cfg, s.server, fd);
    case Sent(ref, payload, n) => OnSentKeepsInv(cfg, s.server, ref, payload, n);
    case PopCompletion => CompletionGoesOn(cfg, s.server, s.completions[0]);
    case _ =>
  }

  lemma RecvTerminatesIff(cfg: Config, s: ServerState, ref: SessionRef, chunk: string)
    requires Inv(cfg, s) && RecvToken(ref) in s.tokens && |chunk| <= cfg.recvBuffer && ValidOrder(cfg.order)
    requires IsLive(s, ref)
    ensures OnRecv(cfg, s, ref, chunk).terminated <==>
            chunk != "" && SomeOutOfRange(F.TakeLines(s.sessions[ref.fd].input + chunk, QuitLine()).lines)
  {
    if chunk == "" {
      DropKeepsInv(cfg, s, ref);
    } else {
      ConsumeRecv(cfg, s, ref);
      var s0 := Consume(s, RecvToken(ref));
      OwnReceive(s, ref, ref.fd);
      assert FramedSession(cfg, s.sessions[ref.fd], s.hist[ref]);
      ChunkHandled(cfg, s0, ref, chunk);
      AppendIs(cfg, s0, ref, chunk);
      AppendKeeps(cfg, s0, ref, chunk);
      var s1 := Append(s0, ref, chunk);
      ProcessLinesAround(cfg, s1, ref);
      var s2 := ProcessLines(cfg, s1, ref);
      if !s2.terminated {
        FinishKeepsInv(cfg, s2, ref);
      }
    }
  }

  /** Those lines are the entries and moves with a coordinate beyond 32 bits. */
  lemma OutOfRangeIff(line: string)
    ensures IsOutOfRange(line) <==>
            match Parse(line)
            case Error(_) => false
            case Ok(r) =>
              || (r.command == EnterWorld && |r.args| == 4 && IsSignedNumber(r.args[2]) && IsSignedNumber(r.args[3])
                  && !(FitsInt(SignedValue(r.args[2])) && FitsInt(SignedValue(r.args[3]))))
              || (r.command == MoveTo && |r.args| == 2 && IsSignedNumber(r.args[0]) && IsSignedNumber(r.args[1])
                  && !(FitsInt(SignedValue(r.args[0])) && FitsInt(SignedValue(r.args[1]))))
  {
    match Parse(line)
    case Error(_) =>
    case Ok(r) =>
      ParseAccepts(line, r);
      CoordinatesOf(r);
  }

  function MoveRequest(x: int, y: int): Request {
    Request(MoveTo, "MOVE", [ToString(x), ToString(y)])
  }

  lemma NumberIsWord(n: int)
    ensures IsWord(ToString(n)) && IsSignedNumber(ToString(n)) && SignedValue(ToString(n)) == n
  {
    RoundTrip(n);
  }

  lemma MoveIsValid(x: int, y: int)
    ensures ValidRequest(MoveRequest(x, y))
    ensures Parse(Print(MoveRequest(x, y))) == Ok(MoveRequest(x, y))
    ensures IsOutOfRange(Print(MoveRequest(x, y))) <==> !(FitsInt(x) && FitsInt(y))
    ensures !IsQuit(Print(MoveRequest(x, y)))
  {
    NumberIsWord(x);
    NumberIsWord(y);
    var args := [ToString(x), ToString(y)];
    MoveNumbers(args);
    NameIsWord(MoveTo);
    ParsePrint(MoveRequest(x, y));
    OutOfRangeIff(Print(MoveRequest(x, y)));
  }

  function EnterRequest(p: Place): Request {
    Request(EnterWorld, "ENTER", [p.account, p.character, ToString(p.x), ToString(p.y)])
  }

  lemma EnterIsValid(p: Place)
    requires IsWord(p.account) && IsWord(p.character)
    ensures ValidRequest(EnterRequest(p)) && Parse(Print(EnterRequest(p))) == Ok(EnterRequest(p))
  {
    NumberIsWord(p.x);
    NumberIsWord(p.y);
    EnterNumbers(EnterRequest(p).args);
    NameIsWord(EnterWorld);
    ParsePrint(EnterRequest(p));
  }

  lemma QuitIsValid()
    ensures Parse(Print(Request(Quit, "QUIT", []))) == Ok(Request(Quit, "QUIT", []))
  {
    NameIsWord(Quit);
    assert NumbersOk(Quit, []);
    ParsePrint(Request(Quit, "QUIT", []));
  }

  /** In a client's own text: an ENTER puts it at its coordinates, */
  lemma EnterSaysWhere(here: Option<Place>, p: Place)
    requires IsWord(p.account) && IsWord(p.character) && FitsInt(p.x) && FitsInt(p.y)
    ensures PlaceAfter(here, Print(EnterRequest(p))) == Some(p)
    ensures SavesAfter(here, Print(EnterRequest(p))) == [p]
  {
    EnterIsOp(p);
  }

  lemma EnterIsOp(p: Place)
    requires IsWord(p.account) && IsWord(p.character) && FitsInt(p.x) && FitsInt(p.y)
    ensures LineOp(NOBODY, Print(EnterRequest(p))) == Some(DoEnter(NOBODY, p.account, p.character, p.x, p.y))
  {
    EnterIsValid(p);
    RoundTrip(p.x);
    RoundTrip(p.y);
  }

  /** a MOVE moves it if it is anywhere, */
  lemma MoveSaysWhere(here: Option<Place>, x: int, y: int)
    requires FitsInt(x) && FitsInt(y)
    ensures PlaceAfter(here, Print(MoveRequest(x, y))) ==
            if here.Some? then Some(Place(here.value.account, here.value.character, x, y)) else None
    ensures SavesAfter(here, Print(MoveRequest(x, y))) == []
  {
    MoveIsValid(x, y);
    RoundTrip(x);
    RoundTrip(y);
  }

  /** and a QUIT takes it away. */
  lemma QuitSaysWhere(here: Option<Place>)
    ensures PlaceAfter(here, Print(Request(Quit, "QUIT", []))) == None
    ensures SavesAfter(here, Print(Request(Quit, "QUIT", []))) == if here.Some? then [here.value] else []
  {
    QuitIsValid();
  }

  function Corner(account: string, character: string, n: int): Place {
    Place(account, character, n, n)
  }

  // The lines ENTER at 0 0, MOVE 5 5, ENTER at 1 1, QUIT.
  function EntersTwice(account: string, character: string): seq<string> {
    [Print(EnterRequest(Corner(account, character, 0)))] + [Print(MoveRequest(5, 5))] +
    [Print(EnterRequest(Corner(account, character, 1)))] + [Print(Request(Quit, "QUIT", []))]
  }

  /** For example, whoever enters at 0 0, moves to 5 5 and enters again at 1 1 never has 5 5 saved. */
  lemma EnteringAgainLosesAPlace(account: string, character: string)
    requires IsWord(account) && IsWord(character)
    ensures var lines := EntersTwice(account, character);
            && Whereabouts(lines[..2]) == Some(Corner(account, character, 5))
            && Whereabouts(lines) == None
            && ExpectedSaves(lines, true) ==
               [Corner(account, character, 0), Corner(account, character, 1), Corner(account, character, 1)]
            && Corner(account, character, 5) !in ExpectedSaves(lines, true)
  {
    var p0, p5, p1 := Corner(account, character, 0), Corner(account, character, 5), Corner(account, character, 1);
    EnterSaysWhere(None, p0);
    MoveSaysWhere(Some(p0), 5, 5);
    EnterSaysWhere(Some(p5), p1);
    QuitSaysWhere(Some(p1));
    FourLines(Print(EnterRequest(p0)), Print(MoveRequest(5, 5)), Print(EnterRequest(p1)),
              Print(Request(Quit, "QUIT", [])), p0, p5, p1);
  }

  lemma FourLines(enter: string, move: string, again: string, quit: string, p0: Place, p5: Place, p1: Place)
    requires PlaceAfter(None, enter) == Some(p0) && SavesAfter(None, enter) == [p0]
    requires PlaceAfter(Some(p0), move) == Some(p5) && SavesAfter(Some(p0), move) == []
    requires PlaceAfter(Some(p5), again) == Some(p1) && SavesAfter(Some(p5), again) == [p1]
    requires PlaceAfter(Some(p1), quit) == None && SavesAfter(Some(p1), quit) == [p1]
    ensures var lines := [enter] + [move] + [again] + [quit];
            && Whereabouts(lines[..2]) == Some(p5) && Whereabouts(lines) == None
            && SavedPlaces(lines) == [p0, p1, p1]
  {
    TwoMoreLines([], None, [], enter, Some(p0), [p0], move, Some(p5), []);
    assert [] + [enter] == [enter];
    TwoMoreLines([enter] + [move], Some(p5), [p0], again, Some(p1), [p1], quit, None, [p1]);
    TwoOfFour(enter, move, again, quit);
  }

  lemma TwoMoreLines(
    lines: seq<string>, here: Option<Place>, saved: seq<Place>,
    first: string, there: Option<Place>, more: seq<Place>, second: string, last: Option<Place>, rest: seq<Place>)
    requires Whereabouts(lines) == here && SavedPlaces(lines) == saved
    requires PlaceAfter(here, first) == there && SavesAfter(here, first) == more
    requires PlaceAfter(there, second) == last && SavesAfter(there, second) == rest
    ensures Whereabouts(lines + [first] + [second]) == last
    ensures SavedPlaces(lines + [first] + [second]) == saved + more + rest
  {
    OneMoreLine(lines, here, saved, first, there, more);
    OneMoreLine(lines + [first], there, saved + more, second, last, rest);
  }

  lemma OneMoreLine(
    lines: seq<string>, here: Option<Place>, saved: seq<Place>, line: string, there: Option<Place>, more: seq<Place>)
    requires Whereabouts(lines) == here && SavedPlaces(lines) == saved
    requires PlaceAfter(here, line) == there && SavesAfter(here, line) == more
    ensures Whereabouts(lines + [line]) == there && SavedPlaces(lines + [line]) == saved + more
  {
    WhereaboutsAppend(lines, line);
  }

  lemma TwoOfFour<T>(a: T, b: T, c: T, d: T)
    ensures ([a] + [b] + [c] + [d])[..2] == [a] + [b]
  {
  }

  lemma {:induction false} JoinIsOneLine(words: seq<string>)
    requires forall i :: 0 <= i < |words| ==> IsWord(words[i])
    ensures '\n' !in Join(words)
  {
    if |words| > 1 {
      JoinIsOneLine(words[1..]);
    }
  }

  // The first connection, just accepted.
  lemma FirstAccept(cfg: Config, fd: int)
    ensures var r, ref := OnAccept(cfg, Initial(), Some(fd)), SessionRef(fd, 1);
            && IsLive(r, ref) && r.sessions[fd].input == "" && !r.sessions[fd].closeAfterFlush && !r.terminated
            && r.jobs == [] && r.nextRequestId == 1
  {
    InitialInv(cfg);
    AcceptIsConnect(cfg, Initial(), fd);
    var connected := Connected(Consume(Initial(), AcceptToken), fd);
    FirstGreeting(cfg, connected, SessionRef(fd, 1));
  }

  lemma FirstGreeting(cfg: Config, s: ServerState, ref: SessionRef)
    requires IsLive(s, ref)
    ensures var r := QueueResponse(cfg, s, ref, Hello);
            && IsLive(r, ref) && SameButSending(s.sessions[ref.fd], r.sessions[ref.fd])
            && r.jobs == s.jobs && r.nextRequestId == s.nextRequestId && r.terminated == s.terminated
  {
    QueueKeepsSessions(cfg, s, ref, Hello);
  }

  lemma Greeted(cfg: Config, database: Database, fd: int)
    requires ValidOrder(cfg.order)
    ensures var ref := SessionRef(fd, 1);
            var steps := [] + [Accept(Some(fd))];
            && Executes(cfg, Start(1, database), steps)
            && var s := After(cfg, Start(1, database), steps);
               Running(cfg, s) && s.phase == Waiting && IsLive(s.server, ref) && s.server.sessions[fd].input == ""
               && !s.server.sessions[fd].closeAfterFlush
  {
    var start := Start(1, database);
    RunMore(cfg, start, [], Accept(Some(fd)));
    assert ReachableFrom(cfg, 1, database, After(cfg, start, [] + [Accept(Some(fd))]));
    FirstAccept(cfg, fd);
  }

  lemma MoveOnItsOwn(cfg: Config, s: SystemState, ref: SessionRef, x: int, y: int)
    requires Running(cfg, s) && s.phase == Waiting && IsLive(s.server, ref)
    requires s.server.sessions[ref.fd].input == "" && !s.server.sessions[ref.fd].closeAfterFlush
    requires |Print(MoveRequest(x, y))| < cfg.recvBuffer
    ensures var step := Receive(ref, Print(MoveRequest(x, y)) + "\n");
            Enabled(cfg, s, step) && (Next(cfg, s, step).server.terminated <==> !(FitsInt(x) && FitsInt(y)))
  {
    EverySessionIsServed(cfg, s, ref.fd);
    assert SessionRef(ref.fd, s.server.sessions[ref.fd].generation) == ref;
    var line := Print(MoveRequest(x, y));
    MoveIsALine(x, y);
    assert "" + (line + "\n") == line + "\n";
    assert NewLines(s, ref, line + "\n") == [line];
    assert SomeOutOfRange([line]) <==> IsOutOfRange(line) by { assert line in [line]; }
    MoveIsValid(x, y);
    TerminatesIff(cfg, s, Receive(ref, line + "\n"));
  }

  lemma MoveIsALine(x: int, y: int)
    ensures F.TakeLines(Print(MoveRequest(x, y)) + "\n", QuitLine()).lines == [Print(MoveRequest(x, y))]
  {
    var line := Print(MoveRequest(x, y));
    MoveIsValid(x, y);
    MoveHasNoNewline(x, y);
    F.TakeOneLine(line, QuitLine());
  }

  lemma MoveHasNoNewline(x: int, y: int)
    ensures '\n' !in Print(MoveRequest(x, y))
  {
    NumberIsWord(x);
    NumberIsWord(y);
    NameIsWord(MoveTo);
    JoinIsOneLine([NameOf(MoveTo)] + [ToString(x), ToString(y)]);
  }

  /** For example: a first client whose first line moves it beyond 32 bits ends the server, whether or
      not it is in the world; a line with any smaller coordinates does not. */
  lemma AMoveCanEndTheServer(cfg: Config, database: Database, fd: int, x: int, y: int)
    requires ValidOrder(cfg.order) && |Print(MoveRequest(x, y))| < cfg.recvBuffer
    ensures var steps := [] + [Accept(Some(fd))] + [Receive(SessionRef(fd, 1), Print(MoveRequest(x, y)) + "\n")];
            && Executes(cfg, Start(1, database), steps)
            && (After(cfg, Start(1, database), steps).server.terminated <==> !(FitsInt(x) && FitsInt(y)))
  {
    var first, second := Accept(Some(fd)), Receive(SessionRef(fd, 1), Print(MoveRequest(x, y)) + "\n");
    Greeted(cfg, database, fd);
    MoveOnItsOwn(cfg, After(cfg, Start(1, database), [] + [first]), SessionRef(fd, 1), x, y);
    RunMore(cfg, Start(1, database), [] + [first], second);
  }
}

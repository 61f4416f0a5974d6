# A verified model of the game server

A game server accepts line-based TCP clients on one event loop over io_uring, keeps the players in a
world cut into square sectors, tells each client what happens around it, and hands database work to a
pool of threads.  This project models that logic in Dafny and proves what it keeps: which client is
told what, which bytes are sent, which request is answered, which position is stored, in every
interleaving of the loop with the workers.

The world, the server, the dispatcher and the blocking queue exist twice: as classes that change
their fields in place like the program's own objects (`SectorWorlds.SectorWorld`,
`GameServers.IoUringGameServer`, `GameServers.DbDispatcher`, `BlockingQueues.BlockingQueue`), and as
functions on values of the same names (`World`, `Server`).  Each method's postcondition gives its
whole new state as that function of the old one.  The lemmas are about the functions, so that they
can speak of runs.

## How it is laid out

| file | contents |
|---|---|
| `Geometry.dfy` | sectors, `floor_div`, visibility |
| `World.dfy`, `SectorWorld.dfy` | the player table, the sector index, the events of each operation |
| `Views.dfy` | what a client makes of its events, and when that is right |
| `Decimal.dfy`, `Protocol.dfy` | numbers, words, the command table, the parser |
| `Framing.dfy` | cutting received chunks into lines |
| `BlockingQueue.dfy` | the queue between loop and workers, and its monitor with waiting threads |
| `Server.dfy`, `GameServer.dfy` | sessions, sends, client lines, completion handlers |
| `ServerCore.dfy` to `ServerJobs.dfy` | one invariant of the loop, kept by every handler |
| `ServerReplies.dfy` | what a line queues and submits, read off its text |
| `ServerEvents.dfy` | who is live when an event is delivered |
| `Tables.dfy` | players, characters and inventories, one transaction per job |
| `System.dfy` | loop, workers, completion queue and eventfd as one transition system |
| `Runs.dfy`, `Storage.dfy`, `Answers.dfy` | what holds in every reachable state |
| `Conversations.dfy` | over whole runs, every line gets its reply and every request its job |
| `Commands.dfy` | each command from its text to what everybody is told and what the tables become |
| `Progress.dfy` | everything that was asked for can be answered |
| `Overtaking.dfy` | a run that stores a stale position, and when there is none |
| `Overflows.dfy` | the steps of a run that overflow an `int` |

A reachable state is one that some run gets to: each step is a kernel completion (an accept, a chunk,
a partial or failed send), a step of the database handler, or a worker taking a job, committing or
failing it, pushing its completion, or writing the eventfd.  The kernel may return any legal result:
a descriptor that is not open, a chunk of at most the receive buffer, any number of bytes of a send.

## Where the code falls short of what one might expect

* A client that moves to another sector is told nothing about the players that thereby come into or
  go out of its sight.  Its own picture stays right exactly as long as its moves bring nobody into or
  out of range (`Views.StepAccurate`, `Views.AlwaysAccurateIffSettled`); an observer that stays in
  its sector is one case of that, and `Views.WalkingAwayLeavesAStaleView` is the counterexample
  without the condition.
* The parser accepts numbers of any length, `std::stoi` throws beyond 32 bits, and nothing catches it:
  such an ENTER or MOVE ends the server.  `Runs.TerminatesIff` says exactly when.  All run theorems
  are about states before that.
* Whether a long line is refused depends on how the kernel cuts the stream
  (`Runs.ChunksMatterHere`); everything else about framing does not (`Framing.ChunksDoNotMatter`).
* With two or more workers an older position save can be committed after a newer one.  One client of
  a registered account that enters twice can bring it about, with every save committed and the row
  left at the older place (`Overtaking.TwoEntersCanEndStale`).  The last submitted position wins for
  certain iff there is at most one worker (`Overtaking.LastPositionWinsIff`).
* Entering again replaces the player without saving where the old one stood: whoever enters at 0 0,
  moves to 5 5 and enters again never has 5 5 saved (`Runs.EnteringAgainLosesAPlace`).  The place
  replaced is the one last saved iff the player still stands where its last ENTER put it
  (`ServerPlaces.EnteringAgainSavesOldPlaceIff`, `Storage.PlaceIsSavedIff`).
* `floor_div` overflows an `int` for values below `-(INT_MAX - sector size)`, which a client can send
  (`Geometry.FloorDivOverflow`, `Geometry.FloorDivOverflows`).  The run theorems compute with
  unbounded integers and take no notice of it; `Overflows.OverflowsIff` says at which steps of a run
  that makes a difference.

## Model

| member | source | states |
|---|---|---|
| Geometry.FloorDivIsFloor | src/world.cpp:10-18 | `floor_div` gives the mathematical floor of the quotient, and is the only number to do so |
| Geometry.FloorDivOverflow | src/world.cpp:10-18 | with 32-bit ints no step of `floor_div` overflows iff the value is at least `-(INT_MAX - divisor)` |
| Geometry.FloorDivOverflows | src/world.cpp:10-18 | for the server's sector size the smallest coordinate a client can send does overflow |
| Overflows.DivisionOverflowsIff | src/world.cpp:10-18 | with the server's sector size, for every `int` the division overflows iff the value is below `-(INT_MAX - S)` |
| Overflows.OverflowsIff | src/server.cpp:443-455 | a step of a run computes a `floor_div` that overflows iff a chunk completes an ENTER, or a MOVE of a connection then in the world, not after a QUIT or a line beyond 32 bits, with a coordinate that low |
| Geometry.VisibilityBounds | src/world.cpp:181-199 | players at most `r * S` apart on both axes see each other, players that do are at most `(r + 1) * S - 1` apart, and seeing is mutual |
| Geometry.VisibilityBoundsAreTight | src/world.cpp:181-199 | neither of these two distances can be improved, for any sector size and radius |
| Geometry.SectorContains | src/world.cpp:181-183 | the sector of a point is the one square of the grid that contains it, first axis and second |
| SectorWorlds.SectorWorld.Create | src/world.cpp:26-34 | construction fails exactly for a non-positive sector size or a negative radius, and otherwise gives the empty world |
| SectorWorlds.SectorWorld.WatchersAround | src/world.cpp:185-199 | the nested loops over neighbouring sectors return exactly the players a scan of everybody finds within the radius |
| SectorWorlds.SectorWorld.InsertIntoSector | src/world.cpp:201-203 | the index gains the player in its sector's bucket and changes nowhere else |
| SectorWorlds.SectorWorld.EraseFromSector | src/world.cpp:205-215 | the index loses the player from that bucket, and the bucket when it was the last |
| SectorWorlds.SectorWorld.Enter | src/world.cpp:36-78 | the new table, index and events are those of `World.Enter`, and the index stays valid |
| SectorWorlds.SectorWorld.Move | src/world.cpp:80-129 | the new table, index and events are those of `World.Move`, and the index stays valid although the two queries straddle its change |
| SectorWorlds.SectorWorld.Attack | src/world.cpp:131-154 | the events are those of `World.Attack`; table and index stay as they were |
| SectorWorlds.SectorWorld.Leave | src/world.cpp:156-179 | the new table, index, events and snapshot are those of `World.Leave`, and the index stays valid |
| World.IndexRefinesScan | src/world.cpp:36-215 | after any sequence of operations every player is in exactly the bucket of its own coordinates' sector, no bucket is empty, and every index query equals a scan of all players |
| World.OrdersExist | src/world.cpp:52 | there are iteration orders as the lemmas assume them: every finite set can be listed, each element once |
| World.MoveNotifies | src/world.cpp:80-129 | a move tells the mover MOVED, every other player exactly the one line that its view before and after calls for, and nobody else anything |
| World.MoveInSector | src/world.cpp:80-129 | a move within a sector tells nobody of entering or leaving |
| World.ArriveNotifies | src/world.cpp:40-77 | an entrant is told it entered and is shown everybody around it, everybody around is told it came, nobody else anything |
| World.LeaveNotifies | src/world.cpp:156-179 | a departure is told exactly to the others who saw the player, and not to the player |
| World.AttackNotifies | src/world.cpp:131-154 | an attack is told to the attacker and to exactly the others who see it |
| World.AbsentAreTold | src/world.cpp:80-136 | a move or attack by somebody not in the world changes nothing and tells exactly that player so |
| Views.EnterViews | src/world.cpp:36-78 | entering, also for the second time, gives the entrant the right view and keeps every other right view right |
| Views.MoveOwnView | src/world.cpp:103-126 | a mover's right view stays right iff the same others are around before and after |
| Views.StepAccurate | src/world.cpp:36-179 | any operation by anybody keeps an observer's right view right iff it is not the observer leaving or moving to other company |
| Views.SettledViewIsAccurate | src/world.cpp:36-179 | over every run of any players, a client that entered and brought nobody into or out of range by its own moves sees exactly the players around it, each where it is |
| Views.AlwaysAccurateIffSettled | src/world.cpp:36-179 | from entering to leaving, a view is right at every moment iff each own move kept the same company |
| Views.SameSectorViewIsAccurate | src/world.cpp:36-179 | in particular for an observer that has not changed sector since its last ENTER |
| Views.WalkingAwayLeavesAStaleView | src/world.cpp:103-126 | without the condition the claim is false: a player that walks off still believes in the neighbour it left |
| Decimal.RoundTrip | src/server.cpp:500 | the text of a number passes the signed-number test and reads back as it; `stoi` of it fails iff it does not fit 32 bits |
| Protocol.BlankSeparates | src/protocol.cpp:57-68 | any of the six blank characters separates words, wherever it stands and however many there are |
| Protocol.UpperIgnoresCase | src/protocol.cpp:12-16 | upper-casing gives a command's name exactly for the words that spell it in any mixture of cases |
| Protocol.DispatchFollowsTable | src/protocol.cpp:70-152 | each command accepts exactly its number of arguments and numbers where it wants them, with the error for each failure |
| Protocol.ParseAccepts | src/protocol.cpp:51-155 | a line is accepted as a request iff the request is valid and the line's words spell it, the command in any mixture of cases |
| Protocol.ParseRejects | src/protocol.cpp:51-155 | which error each rejected line gets: empty, unknown command, wrong number of arguments, not numeric |
| Protocol.AnyCaseWillDo | src/protocol.cpp:51-155 | the words of any valid request, with the command in any mixture of cases, are accepted as that request |
| Protocol.UnknownIsRefused | src/protocol.cpp:154 | a line whose first word spells no command in any case is refused for that word |
| Protocol.ParsePrint | src/protocol.cpp:51-155 | printing a valid request and parsing gives it back, with or without a carriage return |
| Protocol.ParsePrintParse | src/protocol.cpp:51-155 | printing what was accepted and parsing again accepts the same |
| Protocol.CarriageReturn | src/protocol.cpp:52-55 | a trailing carriage return changes nothing, for any line |
| Protocol.ParseLine | src/protocol.cpp:51-155 | the parser's loops over the stream compute the reference parse |
| Framing.LinesUnique | src/server.cpp:200-208 | cutting a stream at its newlines loses nothing and is the only way to write it as lines and an unfinished rest |
| Framing.ChunksDoNotMatter | src/server.cpp:196-230 | for any chunks: of the stream up to the first chunk that completes a QUIT or leaves an overlong line, the lines handled are its lines up to the first QUIT and the bytes kept exactly those after them; they are the lines of the whole stream unless a chunk ended inside an overlong line, which happens exactly when some prefix of the chunks has one |
| Framing.ReadCountIsFirst | src/server.cpp:210-230 | the chunks read are those up to the first after which the connection stops, for a QUIT or for an overlong line |
| Framing.SameStreamSameLines | src/server.cpp:196-230 | two ways to cut one stream, neither stopped by an overlong line, handle the same lines |
| Framing.ChunksMatterForLongLines | src/server.cpp:219-223 | for every limit there is a stream that one chunking takes as a line and another refuses |
| Runs.ChunksMatterHere | src/server.cpp:219-223 | so too with this server's own QUIT, for every limit |
| Framing.HandledLinesAreShort | src/server.cpp:198-223 | no handled line is as long as the line limit plus the receive buffer |
| Framing.NothingAfterTheLast | src/server.cpp:200-213 | a QUIT is the last line handled |
| BlockingQueues.BlockingQueue.Push | include/portfolio/blocking_queue.h:18-27 | an open queue takes the value at its end, a closed one discards it |
| BlockingQueues.BlockingQueue.Pop | include/portfolio/blocking_queue.h:29-40 | one look at the queue: it waits iff the queue is open and everything accepted was popped, gives up iff it is closed and everything was popped, and otherwise takes the oldest accepted value not yet popped |
| BlockingQueues.BlockingQueue.Close | include/portfolio/blocking_queue.h:42-48 | the queue is closed and keeps its values |
| BlockingQueues.NoLostWakeup | include/portfolio/blocking_queue.h:18-48 | with any number of consumers, in every interleaving, popped values are the accepted ones in order, and a queued value always has a notification under way or a consumer that does not sleep |
| BlockingQueues.ClosedStepDecreases | include/portfolio/blocking_queue.h:29-48 | after the close every step of a consumer or notification decreases what is left to do |
| BlockingQueues.ShutdownIsBounded | src/database.cpp:683-695 | the steps after a close, up to the last worker's exit, are at most as many as was left to do |
| BlockingQueues.ShutdownIsComplete | src/database.cpp:683-728 | after a close some step is possible until every consumer has exited, and then every accepted value was popped |
| GameServers.DbDispatcher.Submit | src/database.cpp:697-699 | an open dispatcher queues the job last |
| GameServers.DbDispatcher.PopCompletion | src/database.cpp:701-709 | the oldest completion comes out, or none if there is none |
| GameServers.DbDispatcher.PushCompletion | src/database.cpp:730-746 | the completion is queued last and the eventfd is readable afterwards, saturated or not |
| GameServers.DbDispatcher.WorkerLoop | src/database.cpp:711-728 | a worker on its own executes every queued job in order, each with exactly one completion, and then exits iff the queue is closed, or waits |
| GameServers.IoUringGameServer.PostSend | src/server.cpp:369-390 | the new state is that of `Server.PostSend`: a send of the front of the outbox, unless one is in flight or there is nothing to send |
| GameServers.IoUringGameServer.QueueResponse | src/server.cpp:401-413 | the new state is that of `Server.QueueResponse`; nothing happens for a session that is gone |
| GameServers.IoUringGameServer.DeliverWorldEvents | src/server.cpp:415-419 | the loop queues every event in order, as `Server.Deliver` |
| GameServers.IoUringGameServer.SubmitPositionSave | src/server.cpp:491-502 | one job with the next id, the account, the character and both coordinates as text |
| GameServers.IoUringGameServer.HandleClientLine | src/server.cpp:421-489 | the new state is that of `Server.HandleLine`, on every branch |
| GameServers.IoUringGameServer.CloseSession | src/server.cpp:504-521 | the new state is that of `Server.CloseSession` |
| GameServers.IoUringGameServer.MaybeCloseAfterFlush | src/server.cpp:523-533 | the new state is that of `Server.MaybeCloseAfterFlush` |
| GameServers.IoUringGameServer.OnAccept | src/server.cpp:163-184 | the new state is that of `Server.OnAccept`, for a failed accept too |
| GameServers.IoUringGameServer.OnRecv | src/server.cpp:186-231 | the new state is that of `Server.OnRecv`, for any chunk, a failure, and an exception in the middle |
| GameServers.IoUringGameServer.OnSent | src/server.cpp:233-257 | the new state is that of `Server.OnSent`, for any number of bytes and for a failure |
| GameServers.IoUringGameServer.OnDatabaseEvent | src/server.cpp:259-293 | the eventfd is read dry and every completion there is handled once, in order, as `Server.OnCompletion` |
| GameServers.IoUringGameServer.Dispatch | src/server.cpp:156-296 | whatever completion the kernel reports, the object goes to the state of the corresponding handler, and from a state with the whole invariant to another one, unless an exception leaves the loop |
| GameServers.CompletionsAreAwaited | src/server.cpp:265-266 | in every reachable state the waiting completions answer different outstanding jobs, as dispatching assumes |
| ServerSends.SentBytes | src/server.cpp:246-252 | the bytes a partial send takes are exactly those that leave the outbox |
| ServerSends.FlushedWhenAllSent | src/server.cpp:523-533 | when the last byte of a closing session goes out, everything ever queued for it was sent |
| ServerClosing.CloseIsErase | src/server.cpp:504-521 | leaving the world before dropping the session is the same as after, since a leaver is told nothing |
| ServerClosing.NothingToFlush | src/server.cpp:227-229 | outside the send handler closing after the flush never closes: a closing session has a send in flight |
| ServerSteps.AwaitedIsCounted | src/server.cpp:278-281 | the guard on the decrement of `pending_db` never fails |
| ServerLines.HandleEffect | src/server.cpp:421-489 | a client's line does to the world, the saves and the session's flags exactly what it stands for, and nothing to other sessions but queue lines |
| ServerPlaces.HandleLineKeepsPlaces | src/server.cpp:421-489 | a line leaves every player a live session that stands where its own lines put it, with exactly the saves they call for |
| ServerPlaces.CloseKeepsPlaces | src/server.cpp:504-521 | a connection that ends leaves the world and has its last place saved once, if it was anywhere |
| ServerViews.DeliverQueues | src/server.cpp:401-419 | every event is queued once and in order for the live connection it is for, and nothing else is |
| ServerViews.DeliverTells | src/server.cpp:415-419 | so the world lines told to a connection grow by exactly its events |
| ServerReplies.LineIsAnswered | src/server.cpp:421-489 | any line queues for each live connection what the world tells it, and then for its own the reply the line calls for: the parser's refusal, BYE, the announcement of a request under the next id, or nothing |
| ServerReplies.LineSubmits | src/server.cpp:428-502 | any line submits exactly the job it calls for: a request, under the announced id, with the operation its command names and the words after the command; the silent save of a place entered or left; or none |
| ServerEvents.OpIsHeard | src/server.cpp:401-419 | wherever players are live sessions, also between the lines of a chunk, no event of a live session's operation is for a session that is gone |
| ServerEvents.LinesAreHeard | src/server.cpp:200-213 | so for every line that the receive loop handles, each in the state that the lines before it left |
| ServerEvents.HeardIsTold | src/server.cpp:415-419 | and every such event is queued for its receiver, behind what was queued before |
| ServerEvents.FinishIsSilent | src/server.cpp:219-230 | what follows the lines of a chunk changes no world and closes no session |
| ServerRecv.ProcessLinesAround | src/server.cpp:200-213 | the loop over the buffer takes exactly the reference's lines, and throws exactly if one of them has a number beyond 32 bits |
| ServerHandlers.OnAcceptKeepsInv | src/server.cpp:163-184 | accepting keeps the whole invariant |
| ServerHandlers.OnRecvKeepsInv | src/server.cpp:186-231 | receiving keeps the whole invariant, or an exception ends the server |
| ServerOutbound.OnSentKeepsInv | src/server.cpp:233-257 | a send's completion keeps the whole invariant |
| ServerOutbound.OnCompletionKeepsInv | src/server.cpp:266-288 | a job's completion keeps the whole invariant and settles one ticket |
| ServerJobs.OnRecvGrows | src/server.cpp:428-502 | the jobs submitted while receiving are well-formed, numbered on from the next id, each with a new ticket, the saves among them are those recorded and the requests those announced for their connections, and nothing is answered |
| System.StepKeepsInv | src/server.cpp:145-297 | every step of the loop or of a worker keeps the invariant |
| System.ReachableInv | src/server.cpp:130-298 | so every state that any interleaving with any number of workers reaches satisfies it |
| Runs.BytesSentAreLinesQueued | src/server.cpp:233-257 | bytes sent followed by bytes in the outbox are the lines queued, in order; a flushed connection sent all of them, a dropped one a prefix |
| Runs.EverySessionIsServed | src/server.cpp:186-257 | something to send iff exactly one send of the session in flight, with the front of its outbox; one receive in flight iff not closing; closing only with something to send |
| Runs.NobodyIsStuck | src/server.cpp:145-297 | a waiting loop can hear from every session and from the listener, and a loop in the database handler can go on |
| Runs.SendsFindTheirLine | src/server.cpp:241-244 | a live session's send never completes on an empty outbox: that arm is dead |
| Runs.JobsAreConserved | src/server.cpp:477-488 | every submitted job is in one place, once: queue, worker, completions or answered; ids are never reused; `pending_db` counts exactly the session's requests under way |
| Runs.QuietMeansAllAnswered | src/database.cpp:697-746 | once queue, workers and completions are empty every job was answered exactly once and nobody awaits anything |
| Runs.RepliesMatchRequests | src/server.cpp:259-288 | each id is announced once, answered at most once, later and to the same connection; on an open one an announced request is answered iff it is no longer under way |
| Runs.AnnouncementsAreRequests | src/server.cpp:477-488 | the requests announced to a connection are, in order and each once, the jobs submitted for it as requests, and every such job is a valid request with the operation that its command names |
| Conversations.EveryLineIsAnswered | src/server.cpp:163-231 | in every reachable state, of its own the server has said HELLO and then, line by line, exactly what each handled line calls for, and last that a line is too long iff the bytes left over exceed the limit; and the requests submitted for the connection are exactly those its lines spell, in order, with operation and arguments |
| Answers.AnswersAreTrue | src/server.cpp:266-286 | a DONE is told only for a request of that very connection whose job a worker committed, a FAIL only for one whose job left the tables alone, each with the line that its execution reported |
| Commands.AttackLine | src/server.cpp:457-460 | the text of an ATTACK: attacker and everybody who sees it are told skill and target as the line has them; an attacker that is nowhere is told that; nobody else is told anything, nobody moves and nothing is submitted |
| Commands.MoveLineMoves | src/server.cpp:452-455 | the text of a MOVE: the player stands where the line says, it is told so, everybody else is told the one line its view before and after calls for; a player that is nowhere is told that and stays nowhere; nothing is submitted |
| Commands.EnterLineEnters | src/server.cpp:443-450 | the text of an ENTER: the player stands at the line's place, is shown everybody around, those who saw its previous incarnation and those around the new place are told, and one silent save of the place is submitted |
| Commands.QuitLineLeaves | src/server.cpp:428-438 | the text of a QUIT: the player is out of the world, those who saw it are told, the client is answered BYE, the place it left is saved, and the connection closes once flushed |
| Commands.SaveLineSaves | src/database.cpp:327-352 | the text SAVE a c l g: the job it submits commits iff the account is registered and both numbers fit 64 bits; the row then has level l cut to 32 bits and gold g, stands where it stood or at 0 0, and nothing else changes |
| Commands.ItemLineStores | src/database.cpp:483-516 | the text SAVE_ITEM a n i k: the job commits iff the account is registered and the numbers fit 64 bits; slot n then holds k of item i, or nothing for k zero, and nothing else changes |
| Commands.RegisterLineRegisters | src/database.cpp:247-266 | the text REGISTER a d: the job commits iff the account is not registered; it then is, with no character and no item, and nothing else changes |
| Commands.LoginLineReads | src/database.cpp:268-325 | the text LOGIN a: the job commits iff the account is registered and leaves the tables alone |
| Commands.LoadLineReads | src/database.cpp:381-481 | the text LOAD a: likewise |
| Commands.LoadInventoryLineReads | src/database.cpp:518-599 | the text LOAD_INVENTORY a: likewise |
| Commands.ALineArrives | src/server.cpp:196-230 | in every run a listening client can send a line as a chunk of its own; it is handled in a state as these lemmas ask for, and world, jobs and queues after the step are those after the line |
| Runs.GenerationsAreSafe | src/server.cpp:504-538 | no two connections share a generation; every reference in sessions, tokens, jobs and the world was handed out; sessions are exactly the open descriptors |
| Runs.AcceptInserts | src/server.cpp:164-170 | an accepted connection always gets its session, under a generation no connection had before |
| Runs.LateCompletionsChangeNothing | src/server.cpp:187-189 | a completion for a connection that is gone changes no session and not the world, and whoever is live, the new owner of its descriptor too, keeps its sends, its receive and the answers it is owed |
| Runs.WakeupsAreNotLost | src/database.cpp:730-746 | a completion that waits while the loop sleeps has a readable eventfd or a worker about to write it, also past saturation and re-arming |
| Runs.DrainingMakesProgress | src/server.cpp:259-292 | while completions wait, the loop can take a step towards them, or waits for a counter that some worker is about to raise |
| Runs.DrainingStepsDecrease | src/server.cpp:259-292 | every step of the loop towards the completions brings it nearer to having taken all |
| Runs.TheHandlerIsItsSteps | src/server.cpp:259-292 | the handler run as one call is a run of the small steps: it takes every completion and polls again |
| Progress.EverythingCanBeAnswered | src/database.cpp:711-746 | as long as there is a worker: from every state of every run, some steps of workers and loop alone, no more than a bound read off the state, answer every request announced on an open connection and leave nothing queued, executing or completed |
| Progress.ServingComesToAnEnd | src/database.cpp:711-746 | every such step lowers that bound, and while anything is left another one can be taken |
| Progress.NobodyAnswers | src/config.cpp:48 | without a worker no job is ever started, executed or completed |
| Runs.PlayersStandWhereTheyWent | src/server.cpp:428-459 | a live connection is in the world exactly where its handled lines put it, any other is not in it |
| Runs.QuitIsFinal | src/server.cpp:428-438 | after its QUIT a connection handles no line and is not in the world |
| Runs.EnterSaysWhere | src/server.cpp:443-450 | the text of an ENTER that fits 32 bits puts its connection at those coordinates, wherever it was |
| Runs.MoveSaysWhere | src/server.cpp:452-455 | the text of a MOVE that fits 32 bits moves its connection there if it is anywhere |
| Runs.QuitSaysWhere | src/server.cpp:428-438 | the text of a QUIT takes its connection out of the world |
| Runs.EventsReachLiveSessions | src/server.cpp:401-419 | in every step of every run, each event that a line of a chunk or a departure delivers is for a live session, and the other steps deliver none |
| Runs.SettledClientsSeeTheTruth | src/world.cpp:36-179 | through the server, too, the lines queued for a settled client show exactly the players around it |
| Runs.SteadyClientsSeeTheTruth | src/world.cpp:36-179 | in particular for a client whose MOVE lines since its last ENTER stayed in the sector entered |
| Runs.SentClientsSeeTheTruth | src/server.cpp:233-257 | once a settled client's outbox is empty, every byte of those lines was sent, so that the client itself sees exactly the players around it |
| Runs.PositionsAreSaved | src/server.cpp:428-521 | the position saves submitted for a connection are, in order, those its lines and its end call for, none missing and none twice |
| ServerPlaces.EnteringAgainSavesOldPlaceIff | src/server.cpp:443-450 | entering again saves the new place only; the place replaced is the one last saved iff the player stands where its last ENTER put it |
| Runs.EnteringAgainLosesAPlace | src/server.cpp:443-450 | for example, ENTER at 0 0, MOVE 5 5, ENTER at 1 1, QUIT saves 0 0, 1 1 and 1 1, never 5 5 |
| Storage.PlaceIsSavedIff | src/server.cpp:443-450 | of a player in the world, the save submitted last is of the place where it stands iff its last ENTER named that place |
| Runs.EmptyAccountMeansAbsent | src/server.cpp:431-434 | the test for an empty account is the test whether the session was in the world |
| Runs.LinesAreThoseOfTheStream | src/server.cpp:196-230 | each connection's lines are exactly those of its byte stream up to the first QUIT, however it was cut and whether or not a line was overlong; a session buffers exactly the bytes after them, stops reading iff there is a QUIT or an overlong rest, and handled lines are bounded |
| Runs.TerminatesIff | src/server.cpp:446-454 | an exception leaves the loop iff a chunk completes an accepted line, not after a QUIT, with a number beyond 32 bits |
| Runs.OutOfRangeIff | src/server.cpp:446-454 | those lines are the entries and moves one of whose coordinates does not fit 32 bits |
| Runs.AMoveCanEndTheServer | src/server.cpp:452-455 | a first client's MOVE ends the server iff one of its two coordinates does not fit 32 bits |
| Tables.RowIsTheLastSaves | src/database.cpp:327-379 | from any tables, after any jobs and failures, a row holds the last committed SAVE's level and gold and the last committed SAVE_POSITION's coordinates, or what was there, or 1, 0, 0, 0 |
| Tables.SaveWrites | src/database.cpp:327-352 | a SAVE job commits iff the account is registered and both numbers fit 64 bits, and writes level from its third argument and gold from its fourth into that one row |
| Tables.PositionWrites | src/database.cpp:354-379 | a position save commits iff the account is registered and the place fits 32 bits, and moves that one row there, creating it with level 1 and gold 0 |
| Tables.ItemWrites | src/database.cpp:483-516 | a SAVE_ITEM job commits iff the account is registered and its numbers fit 64 bits, and fills or empties that one slot |
| Tables.RegisterAdds | src/database.cpp:247-266 | a REGISTER job commits iff the account is new, and registers it without any row or item |
| Tables.ReadersChangeNothing | src/database.cpp:268-541 | LOGIN, LOAD and LOAD_INVENTORY jobs commit iff the account is registered, and change nothing |
| Tables.SlotIsTheLastSave | src/database.cpp:483-516 | from any tables, after any jobs and failures, a slot holds what the last committed SAVE_ITEM put there, or what was there |
| Tables.SavesCommute | src/database.cpp:327-379 | a SAVE and a SAVE_POSITION give the same tables in either order |
| Tables.StrangersLeaveNoTrace | src/database.cpp:211-245 | no save commits for an account that is never registered, and it has no row |
| Tables.PositionRoundTrip | src/database.cpp:354-358 | a position save's text reads back as the position iff it fits 32 bits |
| Storage.JobsExecuteOnce | src/database.cpp:711-728 | every executed job was submitted, and none is executed twice |
| Storage.OneWorkerKeepsOrder | src/database.cpp:711-728 | a single worker executes the jobs in the order of submission |
| Storage.TwoWorkersMayNot | src/database.cpp:672-728 | with two idle workers the second queued job can be executed before the first, whether it commits or fails |
| Storage.RowsAreTheLastSaves | src/database.cpp:625-728 | in every interleaving of any number of workers the rows are those of the last committed saves |
| Storage.SlotsAreTheLastSaves | src/database.cpp:625-728 | and the inventory slots hold what the last committed SAVE_ITEM put there |
| Storage.PositionSavesRead | src/database.cpp:354-379 | the i-th position save of a connection reads, for its worker, as the i-th place its lines call for, and commits exactly when the account is registered |
| Storage.OneWorkerStoresTheLastPosition | src/database.cpp:354-379 | with at most one worker, all jobs executed and no save of the character failed, its row stands at the position submitted last |
| Overtaking.OlderSaveWins | src/database.cpp:354-379 | whenever two workers are idle and two saves of one character of a registered account are at the head of the queue, both can be committed so that the row stands at the older position; what is queued behind them stays |
| Overtaking.TwoEntersCanEndStale | src/database.cpp:672-728 | a run from the start, for any two or more workers: one client connects and enters twice, everything it asked for is committed, and its row stands at the first place |
| Overtaking.LastPositionWinsIff | src/database.cpp:672-728 | for a registered account whose ENTERs fit the receive buffer, the row stands at the position submitted last in every state with all executed and no save failed iff there is at most one worker |

## Left out

- The kernel and liburing: socket setup, ring capacity, cancellation; a token belongs to its session from the moment it is posted, so a descriptor that is closed and reused between preparing and submitting an entry is not modelled.
- A completion handler is one step; workers interleave between handlers and within the one that takes completions, not within the others, with which they share only the job queue.
- Server `stop()`, destructors and signals: they skip leaving the world and saving on purpose; the run theorems are about a server that is not stopping.
- `config.cpp`, `main.cpp` and the build: the number of workers, the line limit and the receive buffer are parameters.
- The MySQL protocol: each job is one transaction that may fail without effect; collation, column widths, connection loss after a commit, `updated_at` and `last_login_at` are not modelled, nor is the trailing text that `std::stoul` would tolerate, which the parser never lets through.
- Display names, and what LOGIN, LOAD and LOAD_INVENTORY report: only whether the account is known.
- The text of replies and events is a parameter; a world line carries the player it is about, where the text has its character name and coordinates.  Characters stand for bytes.
- The order in which a hash set is iterated is a parameter, chosen anew at each iteration.
- Generations and request ids are unbounded, not 64 bits wide.  Coordinates of players fit 32 bits, and the arithmetic on sectors is unbounded beyond the one overflow of `floor_div`.
- Liveness under fairness: a closing session that stays in the world can be sent events for as long as others keep moving.
- GameServers.DbDispatcher.WorkerLoop: nobody else uses the queue while it runs; several workers, and jobs pushed meanwhile, are in `BlockingQueues` and `System`.
- GameServers.IoUringGameServer.OnDatabaseEvent: no worker pushes a completion while it runs; that interleaving is in `System`, where each completion is taken in a step of its own.

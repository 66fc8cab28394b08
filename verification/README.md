# Verification of the shared sessions and machine protocols

This project models, in Dafny, the parts of the repository that several writers change at once, and
proves what their comments promise over every run. One module per component:

- `Text`, `Keys`, `Messages`: the strings that carry who wrote a message; a session's messages.
- `Scope`, `Order`, `Convert`, `Reading`, `Heard`, `Session`, `Conversation`, `Answers`, `Prefix`, `Question`,
  `Redelivery`, `Disturbed`, `Requests`: what each call of a turn reads of a session several agents answer
  in parallel, from the stored rows to the model's messages and the tools the request defines.
- `Sse`, `SseHub`, `Clients`: the pub/sub hub against the full log of its events, and its clients.
- `Directives`, `Handoff`, `Results`, `Picking`: the machines' directives, from the choice of a machine to
  the ack of a result.
- `Tokens`, `Rotation`: the rotation of a machine's token, with anyone holding copies, and with one honest
  machine that crashes and loses messages.
- `Tasks`, `Reports`: the ends of background tasks and the reports of forks.
- `StatusCache`, `RootClaim`: the cache of the sessions' states and the claim on the runs' root.
- `Sorting`, `Sets`: the standard library's stable sort, as far as the program relies on it; counting.

Each protocol is a state machine. A transaction, a conditional update, or a stretch under a mutex is one
step; goroutines are program counters; crashes, lost messages and restarts are steps like the others. An
invariant is proved step by step, and each main theorem is about every run from the empty state. Code that
changes fields or loops is a class or a method proved against the functions the theorems are about.

What the code does where its comments say otherwise, each with a run that shows it and the exact condition
under which the promise holds:

- A turn answered again because its end could not be written (`workflow/participant.go:544-546`) has the same
  key: it reads the first run's messages for its own, and its model can read a result without its call
  (`Redelivery.AnsweredAgain`; `Conversation.OwnLastExactlyWhen`, `Answers.AnsweredExactlyWhen`). Run again
  under a turn relayed from it, it changes what that one reads, whose later call no longer reads on from its
  earlier one (`Disturbed.PrefixLost`; `Prefix.BaseStays`).
- A relay given up though it came through (`workflow/participant.go:594-595`) ends a turn in progress: the
  turns begun since read it while it still writes (`Disturbed.ReadHalfWritten`; `Prefix.BaseStays`).
- A conversation can end on another participant's answer before the turn's own messages, a relayed one;
  `conversation/order.go:26` says never (`Question.EndsOnARelayedAnswer`; `Question.EndsOnItsQuestion`).
- A client of the hub can be told to reload when it missed nothing (`Clients.StaleForNothing`;
  `Clients.StaleExactlyWhen`).
- A delivery whose mark the database refuses returns without error while its connection is up
  (`gateway/conn.go:386-391`): the directive then waits for the next hello (`Handoff.ForgottenWhenTheMarkFails`;
  `Handoff.ForgetsExactlyWhen`). A mark the database makes, though it says it failed, leaves the directive recorded
  sent and never written (`Handoff.UnwrittenWhenTheMarkIsUnknown`; `Handoff.WrittenExactlyWhen`).
- A directive lost or revoked is completed without a claim (`gateway/conn.go:413`, `gateway/gateway.go:339`):
  two completions can overlap (`Results.CompletionsOverlap`; `Results.OverlapExactlyWhen`).
- A machine told to stop drops the result of a directive it ended (`machine/connect/client.go:639`), also
  when it is its workflow that asked, before the gateway has the result (`Results.LostWhenAskedToStop`;
  `Results.KeptExactlyWhen`).
- An honest machine can be revoked for reuse: a dial it gave up is looked up late, or a connection it left
  is rotated late (`Rotation.LateLookupRevokes`, `Rotation.LateRotationRevokes`; `Rotation.KeptExactlyWhen`).
  The gateway's one connection a machine (`gateway/conn.go:219-255`) narrows the second, and does not close
  it: a connection that does not answer its ping in time gives way while its machine may still read it.
- Two sweeps at once can wake a participant for a cancelled task: the sweep looks at the state it asked for,
  not at the one the row has (`session/tasks.go:299-313`; `Tasks.WakesForCancelled`, `Tasks.KeptExactlyWhen`).
- A sweep that shares the root can remove an entry modified since it looked
  (`activity/claude_code_sweep.go:163-178`; `RootClaim.RemovedYoung`, `RootClaim.OldExactlyWhen`).

## Model

| member | source | states |
|---|---|---|
| `Keys.ParseOfTurnKey` | store/message.go:176-193 | A turn key reads back as its message and participant exactly when the message ID is not negative and the participant is non-empty without dot or colon; otherwise it reads as no turn key |
| `Keys.ParsedTurn` | store/message.go:180-193 | Any string reads as a turn exactly when it is "m", digits of a 64-bit number, a dot, and a participant without dot or colon |
| `Keys.KeyOfTurn` | store/message.go:205-234 | Any key is of a turn exactly when it is the turn's key, a colon, and digits or "end"; of its end exactly in the latter case |
| `Keys.TurnKeyInjective` | store/message.go:168-178 | Two turns share a key only when they are the same turn |
| `Keys.TurnOfMessageKey` | store/message.go:205-220 | The key of a turn's message gives its turn back, exactly for keys that parse |
| `Keys.TurnOfEndKey` | store/message.go:236-245 | The key of a turn's end gives its turn back and is told apart as an end, exactly for keys that parse |
| `Keys.EndIsNoMessage` | store/message.go:236-239 | No end key is the key of an indexed message, of any turn |
| `Keys.NoTurnKey` | store/message.go:137-149 | A key that does not begin as a turn's is no turn's: people's, scheduled, report, task and summary keys |
| `Keys.WriterOfEncoded` | store/message.go:137-245 | For every family of keys the program builds, the stored string tells which turn wrote the message, and whether it is its end, and reads as a turn's for no other writer |
| `Keys.EncodeInjective` | store/message.go:137-334 | Two messages share a stored key only when every part of the key is the same: the families never mix |
| `Keys.TaskOfWorkflowRecovers` | store/background_task.go:58-82 | From the ID of any workflow a task started, the task's own ID is recovered, exactly when the turn's ID neither holds the mark nor ends in its beginning and the call ID is non-empty without colon |
| `Scope.ReadsByKey` | store/message.go:258-304 | What the program decides from a row's stored key, a scope and ends named by keys is what its writer decides: plain messages up to the anchor, own and relayed turns whole, the participant's earlier turns, others' turns ended by then, never an end |
| `Scope.LoadConversation` | store/postgres.go:353-394 | The two passes over the rows give exactly the rows the turn reads, in their order, the ends being each turn's last |
| `Scope.LoadedMeans` | store/postgres.go:346-394 | A row is loaded exactly when it is stored and the turn reads it |
| `Scope.LoadedExactly` | store/message.go:263-304 | What a turn is given, in the rows' own terms: messages no turn wrote up to its anchor; never an end; its own and relayed turns' messages; of turns anchored there or before, its participant's, and those whose last end is not past its anchor |
| `Scope.WholeOrNothing` | store/message.go:263-304 | Of every turn, what is loaded is all it wrote but its end, or nothing |
| `Scope.LoadedParts` | store/message.go:263-304 | What is loaded is what the turn reads of the others and its own messages, nothing twice |
| `Session.FirstWriteStays` | store/postgres.go:464-480 | Over every run, a key stands for the row first written under it: that row never changes, and no other joins it, whoever writes under the key again |
| `Session.WritesTheRest` | store/postgres.go:416-446 | However far earlier attempts went, a batch stores exactly the messages after those stored under its keys, in index order, and nothing twice |
| `Session.StepKeeps` | store/message.go:263-304 | Every step of the session (posting, beginning a turn or beginning it again, producing, storing, confirming, finishing, ending a turn in the place of its run, before it, during it or after) keeps the invariant: IDs rise, keys are unique, what a turn's keys hold is what earlier runs of it stored then what this one produced past that, one turn at a time per participant, calls made once |
| `Session.RunKeeps` | store/message.go:263-304 | The invariant holds in every state of every run |
| `Order.Order` | conversation/order.go:29-72 | The in-place gathering, sorting and merging permutes its input, and with unique IDs gives the one arrangement by rank (anchor, plain before turns, first message, ID) |
| `Order.Gather` | conversation/order.go:29-53 | After the first loop: each turn's block holds exactly its messages, its anchor and its smallest ID, and nothing is lost |
| `Order.Interleave` | conversation/order.go:60-71 | The nested loops over sorted messages and sorted blocks write the merge |
| `Order.MergedIsOrdered` | conversation/order.go:54-71 | Merging the sorted parts gives the arrangement by rank |
| `Order.OnlyArrangement` | conversation/order.go:10-28 | There is one arrangement of unique messages by rank |
| `Order.OrderOfSet` | conversation/order.go:10-28 | The order depends on the set of messages alone, not on how they came |
| `Order.OrderIsIdempotent` | conversation/order.go:10-28 | Ordering twice changes nothing |
| `Order.TurnsAreWhole` | conversation/order.go:10-21 | Between two messages of a turn there is only that turn, by rising ID |
| `Order.TurnsFollowTheirAnchor` | conversation/order.go:10-15 | A turn comes after a message no turn wrote exactly when that message's ID is not above its anchor |
| `Order.TheRestByID` | conversation/order.go:12-15 | Messages no turn wrote come by ID; turns of one anchor by their first message |
| `Convert.Collect` | conversation/convert.go:104-124 | The first pass records exactly the other agents' calls, the private calls made for another user, and every call |
| `Convert.Convert` | conversation/convert.go:103-182 | The two passes compute the translation that the `Heard` lemmas say loses nothing and the `Reading` lemmas keep apart, task ends and clipping by bytes included |
| `Heard.SaidInOrder` | conversation/convert.go:126-182 | Every message that says something stands in what the model reads, whole, before what was said later: as words of a user text, or as a block |
| `Heard.NothingElse` | conversation/convert.go:126-182 | And nothing else does: what the model reads is the messages' readings from first to last, each run of words one user text, a blank line between two |
| `Heard.PeopleAreHeard` | conversation/convert.go:369-375 | A person's words stand in full under their name, as they are when unsigned |
| `Heard.SummariesAreHeard` | conversation/convert.go:340-347 | A fork's summary stands in full, after what says it is one |
| `Heard.ReportsAreHeard` | conversation/convert.go:352-364 | A fork's report stands in full, after what says it is one |
| `Heard.SilentAddsNothing` | conversation/convert.go:127-129 | A turn's end, and a person's message without words, add nothing |
| `Heard.OthersAreHeard` | conversation/convert.go:186-191 | Another agent's answer stands in full under the name the catalog, else the message, gives it |
| `Heard.OthersCallsAreHeard` | conversation/convert.go:192-196 | Each call of another agent stands under its name: the tool, and the longest beginning of its input that fits in 500 bytes, or that it is private |
| `Heard.OthersCallsInOrder` | conversation/convert.go:192-196 | Its calls stand in the order it made them |
| `Heard.OthersResultsAreHeard` | conversation/convert.go:201-207 | The result of another agent's call stands under the tool and that agent, as a result or an error, to 1500 bytes, or as private |
| `Heard.OwnTurnsAreKept` | conversation/convert.go:138-180 | An own answer, call or result, and a person's message that is not text, is a block as it was stored, but for inputs of private calls made for another user, their results, and results of calls nowhere in the conversation |
| `Heard.TasksAreHeard` | conversation/convert.go:246-252 | A task's report stands whole for the agent that started it, to 1500 bytes for another |
| `Heard.InstructionsAreHeard` | conversation/convert.go:237-245 | Every instruction attached to a task while it ran stands, under who attached it, in what the agent that started it reads |
| `Heard.InstructionsInOrder` | conversation/convert.go:237-245 | And in the order they were attached |
| `Heard.OutcomesAreHeard` | conversation/convert.go:261-278 | A task's end says how it ended, who stopped it, after how long to the second or the nearest minute, and that it is nobody's message |
| `Heard.TasksAreNamed` | conversation/convert.go:220-235 | And which tool it was, what for, who started it, for whom and when |
| `Reading.CallsOfMeans` | conversation/convert.go:104-124 | What is recorded of a call ID, in terms of the messages that make it |
| `Reading.NonInterference` | conversation/convert.go:97-182 | Two conversations that differ only in private inputs and results (of the reader's turns for another user, of other agents, of calls nowhere in the conversation) convert to the same output |
| `Reading.TextsAreJoined` | conversation/convert.go:300-315 | No two adjacent messages of what the model reads are plain user text |
| `Reading.CallsKeepTheirResults` | conversation/convert.go:86-182 | A history that keeps each call directly with its results is read with each call directly followed by its results |
| `Reading.ScanMeans` | conversation/convert.go:86-182 | What a scan that ends well says: the j-th call of a message is answered by the j-th message after it, and every result follows its call |
| `Reading.NoOtherBlocks` | conversation/convert.go:89-95 | Every assistant or tool message the model reads is its own agent's or nobody's, and no result block answers another agent's call |
| `Reading.ConversationExtends` | conversation/convert.go:103-182 | Adding messages of the reading turn only adds at the end of what the model reads |
| `Conversation.Conversation` | activity/llm.go:289-320 | Loading, ordering and adding the tail not found stored gives the conversation the run theorems are about |
| `Conversation.OwnMessagesLast` | activity/llm.go:289-320 | In every state of every run, a call reads what it may of the others, then the turn's own messages, stored and unconfirmed together, each once and in index order, if and only if what an earlier run of the turn stored begins what this one produced, and every turn relayed to it began to store before it |
| `Conversation.OwnLastExactlyWhen` | workflow/participant.go:399-413 | A step keeps that true of every turn in progress if and only if it begins no turn of which something is stored, and lets no turn relayed to one in progress begin to store after it |
| `Conversation.AnsweredOnce` | activity/llm.go:289-320 | So in every run in which each message is answered once, and no turn in progress is ended by another |
| `Redelivery.AnsweredAgain` | workflow/participant.go:544-554 | A run in which a turn answered again, its end not written, does not read its own messages last, and its model reads a result without its call |
| `Answers.ReadKeepsCalls` | store/postgres.go:416-446 | When every turn's messages meet whole batches of what earlier runs stored, a call reads each call made once and directly followed by its results |
| `Answers.AnsweredExactlyWhen` | conversation/convert.go:86-182 | A step keeps every turn's model reading each call followed by exactly its results, and each result after its call, if and only if it is no batch that goes on past what an earlier run of its turn had stored from within |
| `Answers.EveryCallAnswered` | conversation/convert.go:86-182 | Over every run of such steps, what the model reads has every call followed by exactly its results, and every result after its call |
| `Answers.AnsweredWhenOnce` | conversation/convert.go:86-182 | And so in every run in which each message is answered once, and no turn in progress is ended by another |
| `Prefix.BaseStays` | store/message.go:263-304 | While a turn is in progress, a step leaves what it reads of the others unchanged if and only if it does not store more of another turn it reads: one relayed to it, or one that has an end though it goes on |
| `Prefix.CachedPrefix` | activity/llm.go:289-320 | Over every run, what a later call of a turn in progress reads begins, message for message, with what its earlier call read, whatever the other participants wrote meanwhile, as long as, at the earlier call, every turn relayed to it that stored anything began to store before it, and from then on the other turns it reads store no more |
| `Prefix.CachedWhenOnce` | activity/llm.go:289-320 | So, with neither proviso, in every run in which each message is answered once and no turn in progress is ended by another |
| `Disturbed.PrefixLost` | workflow/participant.go:544-554 | A run from the empty session in which a turn's later call does not read on from its earlier one: the turn relayed to it, its end not written, is answered again and stores its answer before the reader's own |
| `Disturbed.ReadHalfWritten` | workflow/participant.go:566-596 | A run in which what a turn in progress reads changes under it: a turn ended by another goes on and stores more |
| `Question.EndsOnItsQuestion` | conversation/order.go:22-28 | In every run, before the turn's own messages, a conversation ends on the message it answers or on a turn relayed to it; on the message it answers if and only if nothing is stored of any turn relayed to it |
| `Question.EndsOnARelayedAnswer` | conversation/order.go:22-28 | A run in which it ends on another participant's answer, a relayed one |
| `Requests.WithdrawnTools` | activity/llm.go:253-287 | One stub for each tool called and not offered, once, by name, said withdrawn exactly when missing or unknown to the catalog |
| `Requests.EveryCallIsDefined` | activity/llm.go:244-253 | The request of a conversation has a stub for exactly the tools not offered that a message of the agent's own, or of nobody's, calls: every tool of its blocks is defined, and none that other agents alone called |
| `Requests.OneList` | activity/llm.go:266 | The list depends on the set of names alone |
| `Requests.StubsStay` | activity/llm.go:244-287 | A later call of the turn has the same stubs while it calls offered tools only: the definitions are a stable prefix |
| `Sse.ParseOfId` | sse/hub.go:275-286 | An ID reads back as its seq exactly for this hub's epoch and a seq it gave |
| `Sse.EvictedKeeps` | sse/hub.go:134-137 | Making room keeps exactly the log after the new floor |
| `Sse.EvictedCounts` | sse/hub.go:134-137 | Making room forgets only the oldest events, and only as many as it must for one more under the bound |
| `Sse.SweptKeeps` | sse/hub.go:256-273 | A sweep keeps what live topics hold and leaves absent ones no event after what was dropped |
| `Sse.SweptMeans` | sse/hub.go:258-273 | A sweep, a minute after the last at the soonest, takes the topics nobody listens to that were unused for the idle time, and no other |
| `Sse.SweptSubscribed` | sse/hub.go:256-273 | A topic an open subscriber is on is never swept |
| `Sse.OneDrop` | sse/hub.go:264-272 | What is dropped does not depend on the order the topics are swept in |
| `Sse.PublishKeeps` | sse/hub.go:120-136 | Publishing keeps every topic exactly its log after its floor |
| `Sse.MissedIsSince` | sse/hub.go:191-213 | What a returning client of distinct topics missed is exactly its topics' log after the last event it got, in order |
| `Sse.LostIsStale` | sse/hub.go:191-199 | Whenever an event the client has not got is no longer kept, it is told it is stale |
| `SseHub.Hub.Sweep` | sse/hub.go:256-273 | The loop over the topics in any order computes the sweep |
| `SseHub.Hub.Publish` | sse/hub.go:120-155 | Sweep, eviction loop and sending loop compute the new state: kept events, floors, channels that took the event, channels closed |
| `Sse.PublishSends` | sse/hub.go:139-154 | Publishing sends the event to every open channel of its topic with room, closes those without, and leaves every other channel as it was |
| `SseHub.Hub.Subscribe` | sse/hub.go:179-215 | The start given, its missed events, its staleness and the new state, whatever topics are named |
| `SseHub.Hub.Unsubscribe` | sse/hub.go:217-231 | The subscriber leaves each of its topics and its channel closes |
| `Sse.UnsubscribeEnds` | sse/hub.go:217-231 | Ending a subscriber closes its channel, takes it off every topic, and changes no other's |
| `SseHub.Hub.Position` | sse/hub.go:233-243 | The last ID, the topics named made and kept in use |
| `Clients.NoGapNoDuplicate` | sse/hub.go:120-273 | At every moment of every run, what a client got, missed and has in its channel is the beginning of its topics' log after its start, with no gap and no duplicate, all of it while its channel is open |
| `Clients.TopicsKeepEnough` | sse/hub.go:120-138 | In every run, a live topic keeps as many events as the bound allows, or has forgotten none but what sweeps dropped |
| `Clients.InTimeIsServed` | sse/hub.go:179-215 | In every run, a client that comes back when none of its topics had more events since its last than a topic keeps, and nothing since was swept, is not told to reload and gets all it missed, in order |
| `Clients.StepKeeps` | sse/hub.go:120-273 | Publishing, entering, connecting, taking and leaving keep that for every client |
| `Clients.NewOk` | sse/hub.go:94-103 | A hub as it starts, with no client, satisfies all this |
| `Clients.StaleExactlyWhen` | sse/hub.go:163-202 | A returning client that lost an event is told to reload; one that lost none is told so if and only if a topic of its own has forgotten its place and none has an event between that place and its floor |
| `Clients.StaleIsLost` | sse/hub.go:163-202 | So when every topic of its own that has forgotten its place has an event of its own for its floor, it is told to reload if and only if it lost an event |
| `Clients.StaleForNothing` | sse/hub.go:245-254 | A client that missed nothing can be told to reload: a run in which its topic is swept with another's, and made anew |
| `Directives.Reconcile` | gateway/conn.go:301-353 | The loops compute the plan: each list exactly the directives of its fate, in order, and the IDs the machine is told to drop |
| `Directives.OneFate` | gateway/conn.go:301-353 | Each directive has exactly one fate: carried, sent, lost or left |
| `Directives.PlanIsSafe` | gateway/conn.go:301-353 | A hello brings nothing back to life, a model call is never sent again, every unsent running coding directive is carried or sent, every one an earlier connection sent is carried or lost |
| `Directives.CarriedSentOrLost` | gateway/conn.go:314-341 | What the machine still lists is carried on, whatever connection sent it, and is never lost; what was never sent is sent, but for model calls; lost is only what another connection sent and the machine does not list |
| `Directives.SelectedInOrder` | gateway/conn.go:314-341 | Each list has every directive of its fate once, in the database's order |
| `Directives.LeftoverMeans` | gateway/conn.go:342-351 | The machine is told to drop exactly what it lists and the database does not hold running |
| `Handoff.AtMostOnce` | store/machine.go:1031-1042 | In every run, a directive is written to a machine once at most, by the one that marked it sent, and a model call never by a reconcile |
| `Handoff.WrittenExactlyWhen` | gateway/conn.go:384-399 | A step keeps it that what is recorded sent was written, or is about to be by whoever marked it, if and only if it is not a mark made whose sender was told it failed |
| `Handoff.SentWasWritten` | gateway/conn.go:384-399 | In every run without such a mark, a directive recorded sent was written, once nobody is about to write |
| `Handoff.UnwrittenWhenTheMarkIsUnknown` | gateway/conn.go:386-391 | A run with one: the directive is recorded sent and never written |
| `Handoff.ListedIsNotSent` | gateway/conn.go:334-341 | In every run, a reconcile writes to a machine nothing the machine said it holds |
| `Handoff.NoForgottenHandoff` | gateway/gateway.go:248-269 | In every run, once a connection's reconcile is over and every delivery returned, no running coding directive is unsent but one the machine listed, or one whose mark the database refused on that very connection |
| `Handoff.ForgetsExactlyWhen` | gateway/conn.go:384-393 | A step leaves every waiting directive a way to each settled connection (its plan, its machine's list, a delivery coming) if and only if it is not the refusal of a mark on a connection that has no other way to it |
| `Handoff.EveryHandoff` | gateway/gateway.go:248-269 | In every run without such a refusal, none is unsent but one the machine listed |
| `Handoff.ForgottenWhenTheMarkFails` | gateway/conn.go:384-393 | Such a refusal forgets one: the mark fails, the delivery returns, and the directive waits for the next hello |
| `Handoff.Connects` | gateway/conn.go:129-182 | The state that run starts from is reached: a machine connected with nothing to do |
| `Handoff.HandoffKept` | gateway/conn.go:174-182 | Every step keeps it: an unsent directive has a delivery on its way, or every settled connection covers it |
| `Handoff.OnceKept` | gateway/conn.go:384-399 | Every step keeps that only the one who marked a directive writes it, once |
| `Results.AckedIsSettled` | gateway/conn.go:701-756 | In every run, a machine acked has a directive whose row is over, or whose activity has its result or is gone |
| `Results.NeverLost` | gateway/conn.go:701-796 | In every run, a finished directive's result is on the machine's disk or in the row while its activity waits, unless the machine dropped it, which it does only when its directive's workflow asked it to stop |
| `Results.KeptExactlyWhen` | machine/connect/client.go:628-642 | A step keeps the result there if and only if it is not a machine, told to stop, dropping the only copy of one its activity waits for |
| `Results.LostWhenAskedToStop` | machine/connect/client.go:628-642 | A run in which it does: the result is nowhere and the activity waits |
| `Results.CompletionsExclude` | gateway/gateway.go:279-301 | In every run, no two completions with the machine's result overlap, each under the directive's claim; one that ends the activity with an error takes no claim, and is the one that closed the row as lost or revoked |
| `Results.OverlapExactlyWhen` | gateway/conn.go:403-416 | A step lets the two kinds overlap if and only if it closes the row as lost or revoked while a completion with the result is under way, or is a sweep's completion of a row listed before it was |
| `Results.CompletionsOverlap` | gateway/gateway.go:315-346 | A run in which they do: the machine is revoked while its result is being completed |
| `Results.SweepSettles` | gateway/gateway.go:433-474 | With the result in the row and Temporal answering, one sweep lists it, completes the activity and closes the row |
| `Results.ResultGoesThrough` | gateway/conn.go:709-798 | From any state, with nothing failing, a result a machine has on disk is kept in the row, given to its activity, the row closed, and only then dropped by the machine |
| `Results.TriedFiveTimes` | gateway/gateway.go:350-390 | A completion that fails is tried five times, the row and its result as they were, then left to the sweep, the claim given up |
| `Results.LostIsEnded` | gateway/conn.go:403-416 | A directive lost or revoked has its row closed, its activity ended, its machine told to stop |
| `Results.ListedIsDropped` | gateway/conn.go:342-351 | A machine that lists a result of a directive over drops it when told |
| `Results.Claims.Claim` | gateway/gateway.go:279-289 | A completion is reserved exactly when none is under way |
| `Results.Claims.RetryResults` | gateway/gateway.go:440-474 | A sweep starts each readable pending directive not under way once, within the slots, and leaves the others unclaimed |
| `Tokens.StepKeeps` | store/machine.go:569-664 | Whatever anyone enrolls, presents, confirms or revokes: every token given is one machine's, valid or retired and never both, and of two valid tokens one was given for the other |
| `Tokens.RunKeeps` | store/machine.go:569-664 | So in every state of every run |
| `Tokens.RetiredForGood` | store/machine.go:544-567 | A retired token is never valid again, is always answered as retired, and presented it revokes the machine it was |
| `Tokens.CopiesAreExposed` | store/machine.go:569-588 | Two tokens given for the same one are never both valid: one holder of a copy is found out at its next presentation |
| `Tokens.RotatedWhen` | store/machine.go:569-588 | A rotation is refused exactly when the machine is not in use or the token is not one of its two; else the next token is current, the one presented pending, the other retired |
| `Tokens.UseMeans` | store/machine.go:544-567 | In every state, the lookup tells the one machine a token is current of, pending of, or was of; none exactly when it was never given |
| `Tokens.ConfirmedSupersedes` | store/machine.go:590-600 | Over every run, once a rotation is confirmed, the token it was given for is retired for good: never valid again, answered as retired, and presenting it revokes the machine |
| `Tokens.TokenStore.MachineByToken` | store/machine.go:544-567 | The lookup says what a token is to which machine |
| `Tokens.TokenStore.RotateMachineToken` | store/machine.go:602-626 | The transaction computes the rotation, retiring what it replaces |
| `Tokens.TokenStore.ConfirmMachineToken` | store/machine.go:628-651 | The transaction computes the confirmation |
| `Tokens.TokenStore.RevokeMachine` | store/machine.go:753-776 | The machine's tokens are refused and kept as retired |
| `Rotation.KeptExactlyWhen` | store/machine.go:569-600 | A step keeps an honest machine's token good if and only if it is not a late lookup of a token since retired, nor a late rotation that presented the pending token when the machine has, or is being given, the current one |
| `Rotation.HonestMachineKept` | store/machine.go:569-600 | Over every run of such steps, with crashes and lost messages, the disk holds the current or the pending token, and the latest dial is accepted |
| `Rotation.RotationGoesThrough` | gateway/conn.go:129-180 | From any such state, whatever old connections wait for, a machine that dials is let in, given a next token, writes it and confirms it: it is then its only valid token, all it had before retired |
| `Rotation.LatestIsHarmless` | gateway/conn.go:129-180 | What the gateway does for the machine's latest connection is never harmful |
| `Rotation.LateRotatedChangesNothing` | store/machine.go:590-600 | A late confirmation of a token since replaced changes nothing |
| `Rotation.LateLookupRevokes` | gateway/conn.go:96-109 | An honest machine is revoked when a dial it gave up is looked up after its next one rotated the token |
| `Rotation.LateRotationRevokes` | store/machine.go:584-586 | An honest machine is revoked when a connection it left is rotated after the one it reads |
| `Picking.ChooseMachine` | store/machine.go:828-850 | The loop finds the best eligible machine, none exactly when none is eligible |
| `Picking.OneBest` | store/machine.go:828-850 | There is one best, whatever order the machines are listed in |
| `Text.StringLeMeans` | store/machine.go:843 | "First by ID": a string is before another when it begins it, or has the smaller character where they first differ |
| `Picking.FleetStore.PickMachine` | store/machine.go:852-954 | A pick finds its call's directive, or reserves the best machine, or tells the machine that only lacks the extra, or none |
| `Picking.PickMeans` | store/machine.go:857-954 | In the fleet's terms: the machine reserved is the user's, in use, online, not paused, has the capabilities and the extra and a free slot, and goes before every other such by priority, load, ID; none is answered exactly when there is none; one said to lack the extra is such but for it |
| `Picking.FleetStore.CreateLlmDirective` | store/machine_llm.go:152-204 | A model call is made on its machine exactly when it is there, able, under its cap, and the call's key unused |
| `Picking.CallMeans` | store/machine_llm.go:160-204 | In the fleet's terms, exactly when each answer is given: made, used, busy, unavailable |
| `Picking.FleetStore.ChooseLlmMachine` | store/machine_llm.go:69-124 | The best machine under its cap, the best busy one only when there is none, nothing created |
| `Picking.ChooseMeans` | store/machine_llm.go:75-124 | In the fleet's terms: of the machines that serve, the first with a free slot by priority, load, ID; with none free, the first of them all; none exactly when none serves |
| `Picking.NoneMeansNone` | store/machine_llm.go:69-124 | A turn told there is no machine has none able to take a call, busy or not |
| `Picking.CapsHold` | store/machine.go:852-954 | In every run, whatever machines are enrolled, paused, changed and revoked, a machine's open coding directives never pass its cap of them, nor its open model calls theirs |
| `Picking.DirectiveStays` | store/machine.go:1062-1072 | Over every run a directive stays its call's and its machine's, and once ended never changes |
| `Picking.PickedAgain` | store/machine.go:852-881 | Over every run a call has one directive: its pick made again finds it, whatever became of it |
| `Tasks.OneEnd` | store/background_task.go:430-485 | In every run, an ended task has one message and no other task's, holding exactly the instructions whose attachment succeeded, and one writer alone was told the end is its own |
| `Tasks.EndIsFinal` | store/background_task.go:430-485 | In every run, who ended a task, how, and its message never change while its session is there |
| `Tasks.EndIsWritten` | store/background_task.go:439-485 | Over every run, what ends a running task is what its row and its one message say from then on: the content and the state asked for, the instructions attached by then, who had stopped it if cancelled; the writer is told it is its own |
| `Tasks.OverWasEnded` | store/background_task.go:439-485 | And every task over was ended so by one writer's end |
| `Tasks.WakesAreKept` | session/tasks.go:316-361 | Over every run of harmless steps, a cancelled task wakes nobody; one done or failed stays in the wake list until its wake is delivered or given up |
| `Tasks.EnderWakes` | session/tasks.go:299-314 | The writer told an end is its own wakes the participant at once, but for a cancelled task |
| `Tasks.KeptExactlyWhen` | session/tasks.go:290-314 | A step keeps that if and only if it is not a sweep ending as failed, by its own list, a task an overlapping sweep ended as cancelled |
| `Tasks.WakesForCancelled` | session/tasks.go:290-314 | A run in which one does: two sweeps list the task, a member stops it in between, and its participant is woken for a cancelled task |
| `Tasks.CapHolds` | store/background_task.go:245-284 | In every run a participant never runs more than the maximum of tasks, whatever is retried and dropped |
| `Tasks.RegisterCounts` | store/background_task.go:245-284 | A task is recorded exactly when it is there after; a retry changes nothing; a new one leaves its participant at most the maximum; a refusal leaves the rows |
| `Tasks.RegisteredWhen` | store/background_task.go:245-284 | A task is recorded exactly when it is there already, or its session is and its participant runs fewer than the maximum; each refusal says which fails |
| `Tasks.DropUndoes` | store/background_task.go:300-305 | Dropping a task undoes its registration, and leaves one ended meanwhile |
| `Tasks.WokenLeavesTheList` | store/background_task.go:330-345 | A wake recorded takes that task off the wake list, and no other |
| `Tasks.TaskStore.AddTaskFollowUp` | store/background_task.go:377-407 | An instruction is attached to a running task of the participant's under the maximum, or refused, each reason told apart |
| `Tasks.AttachedWhen` | store/background_task.go:377-407 | An instruction is attached, after the others, exactly to a running task of that participant's under the maximum; each refusal says which fails |
| `Tasks.TaskStore.SetTaskCancelledBy` | store/background_task.go:409-428 | The member who stops a running task is named; over and unknown tasks are told apart |
| `Tasks.TaskStore.EndTask` | store/background_task.go:430-485 | The first end writes the message and the state together; later ones change nothing and are told whether the end is theirs |
| `Tasks.TaskStore.EndClosedTasks` | session/tasks.go:241-314 | The loop ends each closed task listed, and wakes exactly for those listed as not stopped whose end is the sweep's |
| `Tasks.SweepMeans` | session/tasks.go:241-314 | A pass ends each closed task listed that still runs, as failed with the sweep's reason, or as cancelled when it was listed stopped, and changes no other |
| `Reports.PendingCall` | session/report.go:200-226 | The index of the first message of the latest turn with a call not answered, the number of messages when there is none |
| `Reports.ReportRange` | session/report.go:181-198 | There is something to report exactly when a reportable message lies after the last report and before the cut; the range is then not empty |
| `Reports.RangeWhenNoneWaits` | session/report.go:181-198 | With every call answered: a range exactly when a reportable message lies after the last reported, up to the last message |
| `Reports.RangeBeforeTheCall` | session/report.go:181-226 | With a call of the turn that wrote last unanswered: nothing from that message on |
| `Reports.NothingWaits` | session/report.go:181-198 | In every reachable state of a session, no message of a turn has a call that waits |
| `Reports.PostedOnce` | store/report.go:90-161 | A report refused changes nothing; one posted is found by a retry, which changes nothing; a new one takes its fork from the range's beginning to its end, its reporter a member of both sessions |
| `Reports.PostedWhen` | store/report.go:90-161 | Exactly when each answer is given; an allowed report is posted |
| `Reports.ReportsChain` | store/report.go:75-161 | Over every run of concurrent and retried reports, those of a fork cover consecutive ranges from 0, none empty, none overlapping, up to its last reported message |
| `Reports.RetryGetsFirst` | store/report.go:121-128 | A report posted again gets its first post, however much later |
| `StatusCache.NothingFromBefore` | session/status.go:254-267 | In every run, what a request is given was read from after the last invalidation done when it started, for all three kinds |
| `StatusCache.LoadsAreShared` | session/status.go:117-163 | In every run, what a load of the states read, nothing invalidated since it began, is given to the request that looks next, within three seconds |
| `StatusCache.LoadedIsGiven` | session/status.go:117-163 | After them one request loads anew while all are given the old states; after a failed load requests wait for a new one |
| `StatusCache.DescribedIsGiven` | session/status.go:165-196 | A workflow's state read is given for three seconds, then read anew; the others' young states stay |
| `StatusCache.AnsweredIsGiven` | session/status.go:198-252 | A participant's answer is given for three seconds, one cut short to nobody; then the participant is asked anew |
| `StatusCache.ChannelsCloseOnce` | session/status.go:147-163 | In every run, a waiter's channel is that of a running load or closed, and no channel about to be closed was closed before |
| `StatusCache.OneLoadAtOnce` | session/status.go:53-79 | In every run, no two loads of the states, nor two queries of one participant, run at once but those superseded |
| `StatusCache.StepKeeps` | session/status.go:117-267 | Every stretch under the lock keeps what those rest on |
| `StatusCache.LookMeans` | session/status.go:117-145 | A request for the states waits only when there is nothing to give, on the load looked for, started when none runs; nothing cached changes |
| `StatusCache.AskMeans` | session/status.go:198-225 | A request for a participant is given a fresh answer, waits for the query running, or makes its own, the one looked for from then on |
| `StatusCache.SupersededChangesNothing` | session/status.go:147-267 | What was being read when the cache was invalidated changes nothing when it ends, however many requests looked since: it is not kept, and the readings that replaced it are still looked for |
| `StatusCache.Statuses.StoreWorkflow` | session/status.go:165-196 | A workflow's state is kept unless invalidated since, the old ones dropped |
| `StatusCache.Statuses.StoreState` | session/status.go:227-252 | An answer is kept unless invalidated or cut short, its query no longer looked for |
| `RootClaim.RunEntries` | activity/claude_code_sweep.go:185-194 | A run's workspace and each of its companions are entries of a run's |
| `RootClaim.OnlyRunEntries` | activity/claude_code_sweep.go:185-194 | No name that does not begin as a run's is one |
| `RootClaim.RunEntryMeans` | activity/claude_code_sweep.go:185-194 | A name is a run's exactly when, one companion's end aside, it begins as a run's and goes on |
| `RootClaim.Root.Sweep` | activity/claude_code_sweep.go:141-183 | The loops remove exactly the stale runs' entries listed, but those that fail or are gone |
| `RootClaim.SweepsAreSafe` | activity/claude_code_sweep.go:102-126 | Over every run of processes claiming, sweeping, converting, serving and dying: alone, a sweep removes no entry of a live process; else only what it saw not modified for a lifetime |
| `RootClaim.ListsExactly` | activity/claude_code_sweep.go:141-183 | A sweep sets out to remove all runs' entries when alone, else exactly those not modified for a lifetime |
| `RootClaim.SweepTakesAll` | activity/claude_code_sweep.go:141-183 | Over every run, a process past its sweep has seen each entry it set out to remove gone |
| `RootClaim.OldExactlyWhen` | activity/claude_code_sweep.go:141-183 | A sharing sweep removes only entries older than the lifetime if and only if none was modified past it between its look and its removal |
| `RootClaim.RemovedYoung` | activity/claude_code_sweep.go:141-183 | A run, its clock never going back, in which it removes an entry of a live run, modified in between |
| `RootClaim.ExclusiveExcludes` | activity/claude_code_sweep.go:128-139 | A process that holds the root exclusively excludes every other that has started runs, the gap of a conversion included |
| `RootClaim.StepKeeps` | activity/claude_code_sweep.go:43-139 | Every step keeps what a process's phase says of the lock |

## Left out

- Order.Order: blocks are values found by index rather than shared heap objects; aliasing of blocks is not modelled.
- SseHub.Hub.Subscribe: subscribers and topics are values found by number and by name rather than shared pointers.
- Convert.Convert: times and durations are shown as given (`started`, `lasted`), private inputs and results are hidden as constants, and every string is valid text.
- Session.StepKeeps: IDs are taken as growing in commit order (the known exception is written at `store/message.go:280`), each batch stored is taken to hold its calls directly with their results, as `workflow/agent.go:212-218` says of a flush.
- Prefix.CachedPrefix: the view of the reading agent (names, private tools) is the same at both calls.
- Handoff.NoForgottenHandoff: a reconcile that cannot read the directives ends its connection; deliveries that never return are counted as not returned.
- Results.NeverLost: one directive at a time; a result refused for its size is one the machine keeps and sends again.
- Rotation.KeptExactlyWhen: the steps of the gateway's connections interleave freely; the one connection a machine is not imposed on them.
- Picking.CapsHold: the caps a machine announced do not change after its enrolment; the online and set-aside machines are given to each step.
- Tasks.WakesAreKept: a session that goes takes its tasks and messages with it; who is told on which channel is not modelled.
- Reports.ReportRange: which messages are reportable is a predicate given to it.
- StatusCache.NothingFromBefore: the order of readings is that of the steps; the clock only ages entries.
- RootClaim.SweepsAreSafe: ending strays and taking a directory back are foreign calls.
- HTTP, WebSocket frames, Temporal and SQL: a transaction is one step on maps of rows, Temporal an environment that accepts, refuses or fails.
- Database and decoding errors part-way: a step does not happen; those that change what is promised are steps of their own (`MarkFails`, `SendFails`, `Get`, `Save`, `CloseRow`).
- `checkLLMResult` and `llmCompletion` (`gateway/llm.go:130-207`): checks of formats, they would only add easy members.
- Prompts, transcripts, titles, alerts, notes, files, skills, coding runs, the participant's workflow but its turns' beginnings and ends, and the machine's executors are not part of this model.
- Widths of integers: IDs, seqs and generations are unbounded, but for the 64-bit bound of a message ID in a turn key.

# Livehost co-host: verified model

A Dafny model of the stateful parts of the TikTok Live co-host, with proofs about whole runs: the bounded
priority queue of social events, the arbitration between the streamer's voice and the co-host's turns, the
registry of live sessions, the TikTok connection life cycle, the viewer memory, and the browser's PCM/WAV
arithmetic. `dafny verify dfyconfig.toml` checks all of it.

## How it is modelled

- **One event loop.** A coroutine can only be interrupted at an `await`, so one step of a model is one
  await-free stretch. Each stretch is a method of the class the source has (`Relay`, `LivehostStream`,
  `TikTokLiveIngestor`, `LivehostSessionRegistry`, ...) whose contract equates the new state with a step function
  of the old one. A run is any list of steps, with the environment (messages, clients, timers, failures,
  cancellation) choosing freely; a step that is not enabled changes nothing. Theorems about runs hold for every
  such list.
- **Logs.** What happened is kept in a log (messages received, turns fired, aborts, resets, claims, sleeps). The
  flags of the source are proved to be exactly what the log says, and the claims are then read off the log.
- **Time** is a real number that only `Wait` moves, and never backwards. Wall-clock times in the viewer memory are
  unrestricted.
- **Identity.** Registry sessions are objects compared by reference, as in the source.

| file | source |
|---|---|
| `Schemas.dfy`, `Scheduler.dfy`, `SchedulerProofs.dfy`, `RankProofs.dfy` | `schemas.py`, `scheduler.py`, `orchestrator.py` |
| `Relay.dfy`, `Session.dfy`, `SessionProofs.dfy`, `MessageProofs.dfy`, `ResetProofs.dfy`, `AnswerProofs.dfy` | `relay.py`, the tasks of `api/ws.py` |
| `Redial.dfy` | `_redial` of `api/ws.py` |
| `Registry.dfy` | `registry.py`, the connection life cycle of `api/ws.py` |
| `Ingestor.dfy`, `IngestorProofs.dfy`, `IngestorInputs.dfy`, `BackoffProofs.dfy` | `ingest/tiktok.py` |
| `Pipeline.dfy` | the drain of `api/ws.py`, which joins ingestor, viewer memory and session |
| `Memory.dfy`, `NoteProofs.dfy` | `memory.py` |
| `Wav.dfy`, `Resampler.dfy` | `static/audio-capture.js` |

## Where the code and its comments disagree

- The scheduler's comment says that a mention always outranks a gift. It does so exactly for gifts worth less than
  99 600 (`MentionOutranksGiftExactlyBelow`).
- `pending_since` being set means that something waits exactly if `max_queue_size >= 1`
  (`ClockMeansBacklogExactly`).
- The reset before a connection attempt is commented as restoring the truth that the new connection has no turn in
  flight. That is so, but the pollers keep firing between a drop and the next connection: a turn sent to the old socket
  in that time is forgotten by the reset, and its events are lost unanswered. The reset spares every such turn, in every
  schedule, exactly if at most one attempt is allowed (`ResetSparesFreshTurnsExactly`, with the schedule in
  `ResetCanEraseAFreshTurn`). An abort never erases another turn than its own (`AbortErasesItsOwnTurn`).
- The same comment says that the reset is what keeps the session from going permanently silent. After it a due batch
  is fired exactly if no `send_text` of the social poller has ever raised (`ResetUnsticksExactly`); a turn sent into
  the dropped connection may raise, and then the session is connected and quiet but answers no social event again
  (`ResetCanComeTooLate`).
- The in-flight guard is commented as preventing overlapping turns. The gateway's messages do not say which turn they
  answer, so the flag tells the truth exactly if nothing clears an outstanding turn but the gateway's answer to it
  (`FlagIsTruthfulExactly`); a barge-in always lowers it early (`BargeInIsEarly`).
- A missing viewer note is described as a first interaction. A known viewer has none exactly if they only ever
  sent gifts worth nothing in total (`NoNoteExactly`). A comment limit of 0 keeps every comment (`LimitBounds`).
- A TikTok client whose `events()` call itself raises is left open, since that call precedes the `try` that closes
  it (`RaisingEventsLeavesOpen`). The client the application builds cannot do that, its `events()` being an async
  generator; this concerns other implementations of the client protocol. With clients that do not raise there,
  nothing is ever left open (`NothingLeftOpen`).
- A handler that is cancelled while it awaits `upstream.connect()`, `ingestor.stop()` or `upstream.close()`, or in
  which something between claim and connect raises, keeps its registry entry (`CancellationLeaks`, `SetupLeaks`);
  that is the only leak, and a cancellation anywhere else leaks nothing (`LeakExactlyByCutOff`).

## Model

| member | source | states |
|---|---|---|
| Scheduler.ScoreEvent | src/livehost/scheduler.py:31-39 | base score by kind, plus the gift value of gifts, plus the bonus if any non-empty keyword occurs in the text |
| Scheduler.EventScheduler.Enqueue | src/livehost/scheduler.py:71-76 | the queue becomes the stably sorted old queue with the new event, less at most one victim if over the cap |
| Scheduler.EventScheduler.EvictOne | src/livehost/scheduler.py:78-87 | exactly the last entry that is neither a gift nor above the protection floor goes, if there is one |
| Scheduler.EventScheduler.NextTurn | src/livehost/scheduler.py:95-106 | None for an empty queue; else the turn and the remaining queue of SplitTurn |
| Scheduler.LiveHostOrchestrator.PollSocialTurn | src/livehost/orchestrator.py:48-54 | a turn comes out exactly if the voice is quiet and something waits, and then it is the scheduler's next one |
| SchedulerProofs.MentionOutranksGiftExactlyBelow | src/livehost/scheduler.py:22-39 | a mentioning comment outranks a gift if and only if the gift is worth less than 99 600 |
| SchedulerProofs.ScoreTable | src/livehost/scheduler.py:12-39 | the score of every event: a gift 500 and its value, a follow 200, a share or comment 100, a like nothing, and 100 000 more if a non-empty keyword stands somewhere in its text |
| SchedulerProofs.GiftsAndMentionsAreProtected | src/livehost/scheduler.py:26-39 | an arriving event is protected from eviction if and only if it is a gift or a mention |
| SchedulerProofs.SortDescSorts | src/livehost/scheduler.py:74 | the queue's sort is ordered, a permutation, and keeps every group of ties in arrival order |
| SchedulerProofs.StableSortIsUnique | src/livehost/scheduler.py:74 | those properties determine the result, so the sort is the stable descending one |
| SchedulerProofs.DroppedStaysDropped | src/livehost/scheduler.py:71-87 | exchange step: whatever an earlier cut with more room dropped would also be dropped after any later arrival |
| SchedulerProofs.OnlineIsOffline | src/livehost/scheduler.py:71-87 | from any well-formed queue, after any arrivals, the queue is all protected events plus the best unprotected ones that fit, ranked by score then arrival |
| SchedulerProofs.QueueBound | src/livehost/scheduler.py:78-87 | the cap is kept unless every entry is protected, and no protected arrival is ever missing |
| SchedulerProofs.Conservation | src/livehost/scheduler.py:71-106 | over any run, arrivals are as a multiset the spoken, overflow-counted, evicted and waiting ones, and the turns report exactly the first two |
| SchedulerProofs.GiftsAndMentionsAreNeverEvicted | src/livehost/scheduler.py:78-87 | no run ever evicts a gift or a mention |
| RankProofs.EveryArrivalIsSomewhere | src/livehost/scheduler.py:71-106 | in any run every single arrival, equal events told apart, is in exactly one place: waiting, spoken, overflow-counted or evicted; and the waiting ones stand by score and then by arrival |
| RankProofs.TurnSpeaksTheBest | src/livehost/scheduler.py:95-106 | in any run, every entry a turn counts or leaves ranks behind every entry it speaks, by score and then by arrival |
| RankProofs.OvertakingIsBounded | src/livehost/scheduler.py:71-106 | a waiting entry moves up one place with every turn, but for at most one place lost to each later arrival of a higher score |
| RankProofs.GoneInTime | src/livehost/scheduler.py:71-106 | so an entry with r ahead of it that m later arrivals outscore has left the queue after more than r + m turns |
| SchedulerProofs.SplitFacts | src/livehost/scheduler.py:98-106 | a turn speaks a prefix of the queue: a small backlog is answered one event at a time, a larger one is cleared in one batch that speaks the first top-k and counts all the others |
| Arbitration.Relay.NotePending | src/livehost/relay.py:44-52 | sets the batch clock only if it is not running |
| Arbitration.Relay.Receive | src/livehost/relay.py:70-85 | what one message does to the flags, and that an abort follows exactly a speech_start with a turn in flight |
| Arbitration.Relay.PollSocial | src/livehost/relay.py:131-151 | fires exactly under the guards; then takes the scheduler's turn, raises the flag, clears the batch clock and notes activity, and otherwise changes nothing |
| Arbitration.Relay.PollIdle | src/livehost/relay.py:161-167 | fires exactly if quiet for idle_seconds with no turn in flight, and otherwise changes nothing |
| Session.LivehostStream.Perform | src/livehost/api/ws.py:353-407 | any next stretch of any of the four tasks, run on the session's objects, is the step function |
| Session.LivehostStream.DrainSocial | src/livehost/api/ws.py:381-395 | a like or share is skipped if so configured; any other event is enqueued, noted as activity, and starts the batch clock |
| SessionProofs.RunConsistent | src/livehost/relay.py:70-167 | in every schedule the four fields of the relay are exactly what the log of messages, arrivals, turns, aborts and resets says, and the log obeys the rules of arbitration |
| SessionProofs.TurnsAreSeparated | src/livehost/relay.py:131-167 | between any two fired turns of either kind lies a turn_done or aborted, a returned abort, or a new connection's reset |
| MessageProofs.FlagsByName | src/livehost/relay.py:70-86 | in every schedule voice_active is up exactly if a speech_start was received and since then no turn_done, no aborted and no new connection came; the in-flight flag exactly if some fired turn has seen none of these nor the return of an abort; last_activity is the time of the latest accepted event, fired turn, speech_start, turn_done or aborted |
| MessageProofs.EachMessageCounts | src/livehost/relay.py:70-86 | what each received message does, by name: speech_start, turn_done, aborted, and nothing for the others |
| MessageProofs.DownEventsCount | src/livehost/api/ws.py:353-364 | the return of an abort, of a forward, of a dial and of a backoff, and a failed dial, each take the down task on as the source does |
| MessageProofs.EachArrivalCounts | src/livehost/api/ws.py:381-395 | every comment, gift and follow is enqueued and noted, likes and shares unless they are skipped, and a skipped one changes nothing |
| MessageProofs.ReplyFreesThePollers | src/livehost/relay.py:82-85 | after a received turn_done or aborted, in any run, a due batch is fired by the next social poll, and an idle turn by an idle poll exactly once idle_seconds are over |
| SessionProofs.AbortCutsATurn | src/livehost/relay.py:75-81 | each abort is sent against a fired turn that nothing has cleared since |
| SessionProofs.AbortsCutDistinctTurns | src/livehost/relay.py:75-81 | no two aborts are sent against the same turn |
| SessionProofs.BargeInIsExact | src/livehost/relay.py:75-81 | an abort is sent, and comes next in the log, exactly after a speech_start received over an outstanding turn |
| SessionProofs.AbortErasesItsOwnTurn | src/livehost/relay.py:79-81 | when an abort returns, the turn it clears is the one outstanding when it was sent, and only arrivals happened in between |
| SessionProofs.VoiceFollowsTheMessages | src/livehost/relay.py:75-85 | voice_active is true exactly if the latest of speech_start, turn_done, aborted and reset was a speech_start |
| SessionProofs.VoiceWins | src/livehost/relay.py:131-162 | no turn fires in a state where speech_start is the latest of those |
| SessionProofs.VoiceFrozenWhileOffline | src/livehost/api/ws.py:328-356 | from a drop until the next reset voice_active never changes, and while it is set nothing but arrivals is logged |
| AnswerProofs.FlagIsTruthfulExactly | src/livehost/relay.py:75-85 | whatever messages answer whatever turns, at every moment the flag is down exactly if all turns fired so far are answered, if and only if nothing clears an outstanding turn but its own answer |
| AnswerProofs.TurnsNeverOverlap | src/livehost/relay.py:103-110 | and then each turn is fired only after every earlier one has been answered |
| AnswerProofs.BargeInIsEarly | src/livehost/relay.py:79-81 | a returned abort has lowered the flag before the gateway can have answered, in every run that has one |
| ResetProofs.ResetUnsticksExactly | src/livehost/api/ws.py:328-356 | after a reset, and the return of a pending send, a due batch is fired by the next social poll if and only if no send_text of that poller has ever raised |
| ResetProofs.DeadExactly | src/livehost/api/ws.py:397-415 | a poller is gone if and only if the session was cancelled, one of its own sends raised, or it was never started |
| ResetProofs.ResetCanComeTooLate | src/livehost/api/ws.py:328-356 | a schedule, for every setting that allows a second attempt, after which the session is connected with both flags down yet never fires a social turn again |
| ResetProofs.ResetCanEraseAFreshTurn | src/livehost/api/ws.py:328-356 | a schedule, for every setting that allows a second attempt, in which a turn fired between drop and reconnect was sent and is erased by the reset unanswered |
| ResetProofs.ResetSparesFreshTurnsExactly | src/livehost/api/ws.py:328-356 | no reset of any schedule erases a turn fired since the drop if and only if at most one attempt is allowed |
| SessionProofs.BatchClock | src/livehost/relay.py:44-52 | pending_since is the arrival time of the first event accepted since the last social turn, and unset exactly if there was none |
| SessionProofs.SocialFiresExactly | src/livehost/relay.py:131-151 | a social poll fires if and only if no turn is outstanding, nobody talks, events wait, and they are enough or the configured wait of the batch is over |
| SessionProofs.ClockMeansBacklogExactly | src/livehost/relay.py:44-52 | a running batch clock implies a waiting event in every run if and only if the queue cap is at least 1 |
| SessionProofs.IdleFiresExactly | src/livehost/relay.py:161-167 | an idle poll fires if and only if no turn is outstanding, nobody talks, and every activity is at least idle_seconds old |
| SessionProofs.IdleOnlyAfterSilence | src/livehost/relay.py:54-61 | no accepted event, speech or turn boundary, or fired turn lies within idle_seconds before an idle turn |
| SessionProofs.IdleRateBound | src/livehost/relay.py:161-167 | any window of length T holds at most floor(T / idle_seconds) + 1 idle turns |
| SessionProofs.AttemptsAreBounded | src/livehost/api/ws.py:156-167 | a session never begins pumping more connections than its attempt budget |
| SessionProofs.SessionRedials | src/livehost/api/ws.py:156-167 | in every schedule the attempts of a session before the current one dropped, and when its down task is over their outcomes are those of a concluded Redial |
| SessionProofs.SessionRunsTheScheduler | src/livehost/api/ws.py:366-402 | in every schedule the session's queue is that of the scheduler run on its arrivals and turns, one turn per social turn fired |
| Redial.Redial | src/livehost/api/ws.py:130-167 | for every environment: stops at the first attempt that does not drop, gives up exactly if all allowed attempts drop, dials once per attempt except a first one already connected, sleeps 2^n - 1 or 10n - 25 seconds for n failures |
| Redial.AttemptTells | src/livehost/api/ws.py:157-166 | an attempt drops or raises exactly if the connect() it needs does, or else its run_once does |
| Redial.BackoffStep | src/livehost/api/ws.py:166 | the closed form of the total backoff adds up sleeps of min(2^n, 10) seconds |
| Registry.LivehostSessionRegistry.Claim | src/livehost/registry.py:33-62 | refused exactly if the id is held under another owner, else the session is on file |
| Registry.LivehostSessionRegistry.Release | src/livehost/registry.py:67-92 | removes the entry exactly if it is this very session |
| Connections.RegistryFollowsTheClaims | src/livehost/api/ws.py:233-453 | for any number of connections in any interleaving, the entry under an id is the latest successful claimant's session while that one has not released, and nothing otherwise |
| Connections.SupersededTeardownRemovesNothing | src/livehost/registry.py:67-92 | no step of a connection that is no longer the latest claimant changes the table |
| Connections.ArrivalIsJudgedByOwner | src/livehost/registry.py:58-62 | an arriving connection is refused exactly if its id is on file under another owner; otherwise, the id free or held by the same owner, its own session is on file |
| Connections.ClaimsAreFairlyJudged | src/livehost/registry.py:58-62 | in every interleaving each refusal was of an id whose latest unreleased claimant had another owner, and each admission was not |
| Connections.ReconnectSupersedes | src/livehost/registry.py:67-92 | whatever phase a connection has reached, the same owner reconnecting under its id gets in and stays on file through the rest of its teardown |
| Connections.LeavingReleases | src/livehost/api/ws.py:308-453 | the two ways out that release take the session off if it is on file |
| Connections.OwnerChangesOnlyThroughAbsence | src/livehost/registry.py:58-62 | as long as an id stays on file its owner stays the same |
| Connections.StoredSessionsAreHeld | src/livehost/api/ws.py:424-453 | whatever is on file belongs to a connection between its claim and its release, or to one cut off there |
| Connections.LeakExactlyByCutOff | src/livehost/api/ws.py:241-453 | once all connections are over, an id is on file if and only if its latest claimant raised in its set-up or was cancelled while awaiting connect(), ingestor.stop() or upstream.close() |
| Connections.CancellationLeaks | src/livehost/api/ws.py:297-311 | cancelling a handler in any of those three phases does leave its session on file |
| Connections.SetupLeaks | src/livehost/api/ws.py:234-298 | so does an exception between claim and connect |
| Connections.EmptyAtTheEnd | src/livehost/api/ws.py:424-453 | if no handler is cut off like that, the registry ends empty on every exit path, cancellations elsewhere included |
| Ingestor.TikTokLiveIngestor.StopLocked | src/livehost/ingest/tiktok.py:75-97 | start and stop up to the await of the cancelled run task, or to their end if none runs |
| Ingestor.TikTokLiveIngestor.StopLockedResumed | src/livehost/ingest/tiktok.py:76-97 | idle with no run task; for a start also a new generation, cleared stop flag and a fresh run task |
| Ingestor.TikTokLiveIngestor.Perform | src/livehost/ingest/tiktok.py:75-175 | any next stretch of start, stop or the run task is the step function |
| IngestorProofs.RunInv | src/livehost/ingest/tiktok.py:75-175 | in every schedule at most the task on file runs, every client is in the condition its stage demands, and the queue is what was pulled |
| IngestorProofs.OneRunTask | src/livehost/ingest/tiktok.py:75-101 | at most one run task lives and its generation is current, so only the stop flag ever ends its loop, and that flag is up exactly while a call holds the lock |
| IngestorProofs.ClosedBeforeTheNext | src/livehost/ingest/tiktok.py:108-175 | every client but the last built is settled: closed once if its connect() returned, else never; only one whose events() raised stays open |
| IngestorProofs.OneOpenClient | src/livehost/ingest/tiktok.py:108-175 | at any time at most one client is connected and unclosed, those aside whose events() raised |
| IngestorProofs.NeverClosedTwice | src/livehost/ingest/tiktok.py:170-174 | no client is closed twice, nor one whose connect() did not return |
| IngestorProofs.AllClosedAtRest | src/livehost/ingest/tiktok.py:84-175 | when no run task lives, a client has been closed exactly once if and only if its connect() returned and its events() did not raise |
| IngestorProofs.NothingLeftOpen | src/livehost/ingest/tiktok.py:108-175 | if no events() raises, at most one client is ever open, and at rest each connected one has been closed exactly once |
| IngestorProofs.RaisingEventsLeavesOpen | src/livehost/ingest/tiktok.py:120-148 | a run after which a connected client is never closed, its events() having raised |
| IngestorProofs.QueueIsWhatWasPulled | src/livehost/ingest/tiktok.py:149-165 | the queue is the concatenation, client by client, of the events pulled, and clients of an earlier start come first |
| IngestorProofs.QueueOnlyGrows | src/livehost/ingest/tiktok.py:164 | queued events are never removed or reordered |
| IngestorInputs.QueueIsEveryPull | src/livehost/ingest/tiktok.py:149-165 | the queue is exactly the events the connections yielded, in that order |
| IngestorProofs.StopReturnsAtRest | src/livehost/ingest/tiktok.py:84-97 | when stop() returns the ingestor is idle and no run task lives |
| IngestorProofs.NothingAfterStop | src/livehost/ingest/tiktok.py:84-97 | until the next start nothing is queued and no client is built or touched |
| IngestorInputs.EveryStartBegins | src/livehost/ingest/tiktok.py:75-82 | every start() that gets the lock begins one run, in order; unique_id is that of the latest run begun and the generation counts them |
| IngestorInputs.DialAnswered | src/livehost/ingest/tiktok.py:108-123 | an offline answer, a failure and a success of connect() are each taken for what they are |
| IngestorInputs.FactoryAnswered | src/livehost/ingest/tiktok.py:101-121 | so are those of the factory, whenever the loop comes round |
| IngestorInputs.StreamAnswered | src/livehost/ingest/tiktok.py:124-136 | a stale stream is redialled in the step that sees its client closed, an ended or errored one sends the task to a backoff sleep |
| IngestorInputs.CancellationEndsTheTask | src/livehost/ingest/tiktok.py:84-93 | a cancellation ends the task where it is suspended, after at most the close() of its client |
| IngestorInputs.StopEndsTheLoop | src/livehost/ingest/tiktok.py:101-133 | while a stop is waited for, a task back at its loop or from its drain ends and builds no client |
| BackoffProofs.EachEndingHasItsWait | src/livehost/ingest/tiktok.py:110-138 | in every schedule, of two successive log entries of a run the later is a backoff sleep exactly if the earlier is an ended or errored stream, a failed dial or a raising factory, and an offline poll exactly if it is an offline answer |
| BackoffProofs.OnlyStaleRedialsAtOnce | src/livehost/ingest/tiktok.py:132-138 | between two successive clients of one run there is no wait exactly if the first stream went stale and nothing else came between; a backoff sleep comes next exactly if it ended or errored or its dial failed |
| BackoffProofs.DeliveredMeansPulled | src/livehost/ingest/tiktok.py:124-130 | a stream counts as having delivered exactly if an event was pulled from its client |
| BackoffProofs.BackoffClosedForm | src/livehost/ingest/tiktok.py:99-138 | if initial <= max the backoff is min(initial * 2^k, max), k counting the backoff sleeps since the run began or a connection that delivered something ended; each sleep lasts 1 to 1.25 times it |
| IngestorProofs.StatusIsTruthful | src/livehost/ingest/tiktok.py:75-148 | the reported state is IDLE when nothing is on file and otherwise the stage the running task is at; only a task that died because events() raised leaves LIVE behind |
| BackoffProofs.ClosedFormExactly | src/livehost/ingest/tiktok.py:99-138 | for any settings, that holds in every run if and only if initial <= max |
| Pipeline.HalvesRunAlone | src/livehost/api/ws.py:366-395 | joined by the raw event queue, session and ingestor each still run as if alone, so the theorems about each hold |
| Pipeline.DrainedInOrder | src/livehost/api/ws.py:366-395 | in every joint schedule the scheduler has received exactly the events the TikTok clients delivered, in that order, up to where the drain has got, less the skipped likes and shares |
| Pipeline.EverythingIsAccountedFor | src/livehost/api/ws.py:366-402 | in every joint schedule each drained event that is not skipped was spoken, overflow-counted, evicted or still waits, once each, and no gift or mention was evicted |
| Pipeline.ArrivalsByKind | src/livehost/api/ws.py:102-109 | in every joint schedule the scheduler has received the drained comments, gifts and follows, and the likes and shares exactly if they are not to be skipped, in drain order |
| Pipeline.DrainTakesTheNext | src/livehost/api/ws.py:366-395 | one turn of the drain takes the next event; a skipped like or share leaves queue, clocks and flags as they were |
| Pipeline.NotesFollowTheStream | src/livehost/api/ws.py:366-387 | in every joint schedule in which nobody else touches the session's memory bucket, every drained event, a skipped one too, is remembered in drain order, and its note is the one its viewer's earlier drained events call for, less those the database failed to record |
| Memory.ViewerMemoryStore.NoteAndRecord | src/livehost/memory.py:66-156 | the note is that of this viewer's history before the event, the event then joins it, the table still summarizes the log, and a database failure costs at most note and record |
| Memory.ViewerMemoryStore.UpdatedRow | src/livehost/memory.py:89-155 | the updated counters, flags, total, comments and times are the summary of the history with one more event |
| Memory.ViewerMemoryStore.Cleanup | src/livehost/memory.py:158-169 | forgets exactly the viewers last seen before the cutoff and returns their number |
| Memory.BuildNote | src/livehost/memory.py:179-200 | the parts of a note, in order, or None if there are none |
| Memory.RecordRefines | src/livehost/memory.py:115-156 | writing one row keeps every row the summary of its own key's history |
| Memory.CleanRefines | src/livehost/memory.py:158-169 | so does deleting the stale rows |
| Memory.OtherKeysDoNotMatter | src/livehost/memory.py:75-84 | what is remembered under a key depends on that key's events and the cleanups only |
| Memory.NoNoteExactly | src/livehost/memory.py:179-200 | a known viewer gets no note if and only if they only ever sent gifts worth nothing in total |
| NoteProofs.RowTells | src/livehost/memory.py:89-156 | every column of a row, told by what the viewer did: counts, flags, sums, times, and the last `limit` things they said |
| NoteProofs.NoteTells | src/livehost/memory.py:179-200 | every part of a note, told by what the viewer did, in the order of the source and none twice |
| NoteProofs.BucketsMeetExactly | src/livehost/memory.py:75 | two memory ids are one bucket exactly if their first 64 characters agree |
| NoteProofs.CleanupForgetsExactly | src/livehost/memory.py:158-169 | a cleanup forgets exactly those last seen before its cutoff |
| Memory.LimitBounds | src/livehost/memory.py:102-104 | the number of kept comments is bounded by the limit if and only if the limit is not 0 |
| Memory.QuoteIsLatest | src/livehost/memory.py:194-199 | the note quotes the viewer's latest non-empty comment, cut to 80 characters |
| Wav.EncodeWav | src/livehost/static/audio-capture.js:30-55 | writes the mono PCM16 WAV file of the concatenated chunks, storing to every byte exactly once and never outside the buffer |
| Wav.OneFile | src/livehost/static/audio-capture.js:30-55 | the description of the file leaves no byte open |
| Wav.WavRoundTrip | src/livehost/static/audio-capture.js:30-55 | a reader recovers the rate and exactly the samples if and only if 36 + 2n and the rate fit 32 bits |
| Wav.FileIsTheFormat | src/livehost/static/audio-capture.js:30-55 | the file is, byte for byte, the header of the specification and the samples, least significant byte first |
| Wav.ByteRateField | src/livehost/static/audio-capture.js:42 | the byte-rate field is right if and only if the rate is below 2^31 |
| Resampler.DownsampleToPcm16 | src/livehost/static/audio-capture.js:4-23 | one output per window, each the quantized mean of exactly its window, reading only inside the input |
| Resampler.InBounds | src/livehost/static/audio-capture.js:10-18 | every window and fallback index lies inside the input, and the bound on the window's end is redundant |
| Resampler.WindowsTile | src/livehost/static/audio-capture.js:9-17 | the windows laid end to end are exactly a prefix of the input |
| Resampler.NoEmptyWindow | src/livehost/static/audio-capture.js:10-18 | no window is empty when ratio >= 1 |
| Resampler.WindowTells | src/livehost/static/audio-capture.js:9-17 | sample j goes into output i exactly if j + 1 lies in (i * ratio, (i + 1) * ratio] |
| Resampler.LengthTells | src/livehost/static/audio-capture.js:5-7 | there are as many outputs as the input holds whole windows |
| Resampler.SampleTells | src/livehost/static/audio-capture.js:12-18 | the value quantized is the mean of the window, or the sample an empty window stands before |
| Resampler.QuantizedTells | src/livehost/static/audio-capture.js:19-20 | quantizing is linear on either side of silence, rounding toward zero |
| Resampler.TailIsShort | src/livehost/static/audio-capture.js:5-11 | fewer than ratio + 1 trailing samples are dropped |
| Resampler.NoWraparound | src/livehost/static/audio-capture.js:19-20 | storing a clamped sample never wraps around Int16 |
| Resampler.NoOvershoot | src/livehost/static/audio-capture.js:14-20 | every output lies between the quantized bounds of the input |
| Resampler.FullScaleExactly | src/livehost/static/audio-capture.js:19-20 | silence is 0, and the extreme Int16 values are reached exactly by samples at or beyond full scale |

## Left out

- Scheduler.LiveHostOrchestrator.PollSocialTurn: the formatted text it returns beside the turn is not modelled, being a rendering of that turn.
- Session.LivehostStream.Perform: the drain's call of the viewer memory is not part of the class's stretch; it is in the drain of `Pipeline.dfy`, with what it proves.
- The text of turns and notes: `format_social_turn` and the wording of notes are plain formatting; turns are event lists with an overflow count and notes are lists of parts.
- Case folding: `lower()` is a function the scheduler's configuration supplies.
- `api/control.py`, authentication, settings, the HTTP, WebSocket and SQLite plumbing, the mapping helpers and the browser UI: no protocol of their own.
- `_get_memory_store`: a cache of one store; the store is modelled as always there, or failing.
- Upload (`pump_up`) and `send_bytes`/`send_json` payloads: forwarded unchanged; only that they may suspend or fail is modelled.
- Liveness: a raising `send_text` ends its poller for good, and low-ranked events can wait forever, so only safety and when a poll fires are stated.
- Floating point: scores are integers, times and audio samples are reals; NaN is not modelled.
- Bounded event queues: the ingestor's queue is unbounded, as `api/ws.py` creates it, so a put never suspends.
- Cancellation of the run task by anyone but `start` and `stop`, such as the shutdown of the event loop.
- `createMicCapture`: wiring of browser audio nodes.
- Sample rates that are not positive: `DownsampleToPcm16` divides by both.

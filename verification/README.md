# Mattermost Calls: the server-side call engine

This project models the part of the Mattermost Calls plugin that keeps a call consistent: the state machine of a call
(joining, leaving, host controls, muting, raising a hand, video, screen sharing, ending), the recording, transcription and
captions jobs that run beside it, the cluster lock and the batching under which all of it executes, and the web client's
picture of the call, which has to stay in step with the server's. The properties are about every run: any number of
channels, users, nodes and goroutines, in any interleaving.

## How it is laid out

Values and specifications:

- `CallModel`, `CallStore` - the entities (call, session, job, state, message) and the three database tables with the
  queries that rebuild a call state and the column-wise updates. IDs are integers; 0 stands for the empty string and 1 for
  the bot. Where the program ranges over a map, the result of that order is an argument (`pick`, `keys`, `order`) that may
  be anything the order could produce.
- `CallSessions`, `CallJobs` - each operation of server/session.go, server/websocket.go, server/host_controls.go,
  server/recording_api.go, server/transcription_api.go and server/bot_api.go as a function of the state that was read
  under the lock and of the database: what the imperative code below is proved against.
- `CallEngine`, `CallInvariant`, `CallTheorems` - runs of these operations and what holds over all of them. Starting a job
  is two steps, because the lock is released around the call to the job service.
- `StepOutcomes` - every step in terms of the rows before and after it and of the messages it publishes, column by column,
  without the functions above: what those functions have to compute.
- `JobSafety`, `JobOutcomes` - the same for the job tables alone.
- `ClientReducers`, `Replay`, `ReplayRuns` - the client's reducers and the proof that snapshot plus events equals state.
- `BatchJoins`, `BatchLeaves`, `BatchCaptions` - one read for a whole batch against one read for each operation.
- `WitnessRuns` - two concrete runs from the empty world, for what the code does not keep.
- `HostSuccession` - choosing the next host, for every iteration order of the session map.

The imperative code, in its own form:

- `CallHeap` - the call state as objects with pointers that may be nil or shared, and `Clone`.
- `JoinHandler`, `EntryHandler`, `LeaveHandler`, `ControlHandlers`, `CallHandlers`, `JobHandlers`, `CleanHandler` - the
  handlers as methods that change those objects and the database, each proved to do what its function of the values says.
- `BatchHandlers` - the callbacks of a batch, run one after the other on one shared object, proved to be a run of the engine.
- `Batching`, `BatcherRuns` - the batcher, and its sharing and teardown by the plugin.
- `ClusterMutex`, `ClusterLease`, `MutexObject` - the lock's configuration and waits, its protocol, its object.
- `SessionTriggers` - the racing goroutines that end a session.
- `Fanout`, `RtcdHosts`, `WebSocketClient` - who is sent an event, which media host a call gets, how a client reconnects.

## What turned out otherwise than expected

- Captions are not unique and not batched faithfully. The transcription timeout ends the captions job in memory and then
  writes the transcription row again (server/transcription_api.go:60-65), so an old captions row keeps running
  (`JobSafety.TimeoutKeepsCaptions`). With two of them a batch of leaves can leave one running that separate leaves would
  end: `WitnessRuns.CaptionsCanDiverge` is a run that gets there, `BatchCaptions.CaptionsAgreeIff` says exactly when.
- A bot that reconnected may leave without ending its jobs: its registration then names the new connection, while
  recordings and transcriptions are matched on the original one. `JobOutcomes.LeaveAfterReconnect` says exactly when they
  end, `WitnessRuns.RecordingOutlivesItsBot` is a run in which they do not.
- Voice and reactions are published without the call lock, from a read of the sessions that may be out of date; one that
  overtakes a departure makes clients show a session without a user (`ReplayRuns.LateSignal`).
- A client that follows every event is not always in step. `ReplayRuns.FollowStep` says exactly which steps it can
  follow: not a media change of the bot's, not the departure of a bot that shares or films (it is not announced), not a
  join whose RTC setup fails (the session exists, but is never announced), not the host's order to end the call (the
  client drops the call while the server keeps it), and not a voice or reaction message about a session it does not show.
- `LateHolderLosesLock`: the lease lock excludes others exactly as long as its holder refreshes in time. A holder that was
  late is not told.
- A refusal by the job service while the transcription is being stopped leaves the recording running, although stopping
  from the recording's side ends both (`CallHandlers.StopTranscribingJob`). No caller is affected: each has ended the
  recording before (`CallJobs.RefusalsWriteTheSame`).
- A removal that wins the race on a session and is then lost, because the batcher is full or the call cannot be locked, is
  not made up for by any other trigger (`SessionTriggers.LeavesIffRemovalRuns`).
- Turning a camera off for a session in a channel the client knows nothing of creates an unmuted entry
  (webapp/src/reducers.ts); the reducer is modelled as it is.

## Model

| member | source | states |
|---|---|---|
| `CallTheorems.HostIsPresent` | server/state.go:172-201 | In every reachable active call the host is empty exactly when only the bot is there, is otherwise a user who is present and not the bot, and is the locked user whenever that user is present |
| `CallTheorems.HostChangesOnly` | server/session.go:435-452 | Over any step of any run, the host of a call that stays active changes only by changeHost in its channel, when the old host has no session left, or when the locked user joins |
| `CallTheorems.MakeHostOutcome` | server/host_controls.go:23-76 | In any world, changeHost is granted exactly to the host or an admin, for a user who is in the call or the host already, and never for the bot; then that user is host, and the lock is theirs unless the host was merely named again while locked; nothing else of the call changes, and a message is published exactly when the host changes |
| `CallTheorems.LockChangesOnly` | server/host_controls.go:49-64 | Over any step but changeHost in its channel, the user a call's host role is locked to stays |
| `CallTheorems.LockHolds` | server/state.go:175-179 | Through any run in which nobody calls changeHost on the channel, however often the locked user leaves and returns, the user is host at every moment they are present while the call is active |
| `CallTheorems.JoinedIff` | server/session.go:101-195 | A join is admitted to an ongoing call if and only if there is room and, for the bot, a recording or transcription of that call with the given row runs and has not started; without a call, if and only if the user may start one, is not the bot, and no rtcd host is missing |
| `CallTheorems.EndsIff` | server/session.go:454-471 | An active call ends over a step if and only if that step is the leave of its only session or its cleanup |
| `StepOutcomes.NewCallRow` | server/session.go:117-148 | The record a join creates, column by column from the request: start and creation now, not ended, channel, owner, post, thread and node, the rtcd host that was chosen or none, host and participants the joining user, no lock, no sharer; its session; and no other row |
| `StepOutcomes.JoinedRow` | server/session.go:197-238 | A join of an ongoing call changes only the hosts and the participants of its record, these by the joining user unless it is the bot, and adds one session |
| `StepOutcomes.JoinAnnounced` | server/websocket.go:776-920 | The exact messages of a join and who they are for: the new host to those in the call, a new call with its host to the channel, the session to the channel, the full state to the one who joined, the last two once the RTC session is set up |
| `StepOutcomes.RefusedBecause` | server/session.go:101-195 | Each refusal of a join has the reason it names |
| `StepOutcomes.LeftRow` | server/session.go:303-475 | The record after a leave, column by column: if the last session left, ended at the time of the leave with hosts, node, rtcd host, dismissals and current participants cleared and the participants listed; otherwise only hosts and screen may change; a leaving sharer stops sharing, and the time shared is added once, to the nearest second; exactly that session's row goes |
| `StepOutcomes.LeaveAnnounced` | server/session.go:303-452 | The exact messages of a leave and who they are for: screen and camera off to those who stay, the departure to the channel unless it is the bot's, a new host to those who stay |
| `StepOutcomes.Successor` | server/state.go:172-201 | A host who leaves is followed by the locked user, else by a user of whom nobody who stays joined earlier, else, if only the bot stays, by nobody |
| `StepOutcomes.CleanedRow` | server/state.go:357-407 | Cleaning up ends a record at that time, with the same columns cleared and kept as by a last leave, unless it had ended, and then changes nothing of it |
| `StepOutcomes.CleanedRest` | server/state.go:370-402 | Exactly the call's sessions go, exactly the jobs a read returns end, at that time, and neither a recording nor a transcription of the call runs afterwards |
| `StepOutcomes.MediaRow` | server/websocket.go:340-463 | A mute, hand or camera message changes exactly the one column it is about, of exactly its session's row |
| `StepOutcomes.MediaAnnounced` | server/websocket.go:350-472 | It is announced exactly once, naming the session and its user, and reaches a user if and only if they are in the call; nothing is announced of a session that is not in the call |
| `StepOutcomes.ShareRow` | server/websocket.go:181-205 | Sharing is granted exactly when nobody shares and stopped exactly by the sharer; then sharer, start and time shared, to the nearest second, change and no other column; else nothing does |
| `StepOutcomes.ShareAnnounced` | server/websocket.go:207-241 | What is granted is announced exactly once and reaches a user if and only if they are in the call; a refusal is not announced |
| `StepOutcomes.HostAnnounced` | server/host_controls.go:66-73 | A host named by changeHost is announced exactly once, to exactly the users in the call, and only if it is new |
| `StepOutcomes.SignalAnnounced` | server/websocket.go:625-641 | A voice or reaction message says which session and what, changes no row, and reaches exactly the users that were read, or the channel if none were |
| `StepOutcomes.ResendAnnounced` | server/websocket.go:1113-1145 | A client that asks is sent the state of the call as it is in the database |
| `StepOutcomes.NothingHappens` | server/host_controls.go:30-32 | Without an active call in the channel no leave, control, media or share message, request or dismissal changes anything or is heard of |
| `StepOutcomes.Silent` | server/session.go:287-293 | A refused join and a leave of a session that is not in the call change nothing and are not heard of; work on jobs, dismissals and cleanups publish nothing about the call |
| `CallTheorems.SessionsChangeOnly` | server/websocket.go:340-472 | Over any step, a session appears only by its own join (muted, hand down, camera off, in a call of that channel), disappears only by its own leave or its call's cleanup, and is rewritten only by its own media message, which changes what it says and nothing else |
| `CallTheorems.LockedHostReturns` | server/session.go:206-220 | A user the host role is locked to has it after any admitted join of theirs |
| `CallTheorems.SharerChangesOnly` | server/websocket.go:167-227 | Over any step, the sharer of a call that stays active is: the one who turned sharing on when nobody shared, nobody when the sharer itself stopped or left, and the same session otherwise |
| `CallTheorems.DismissFrame` | server/api.go:262-272 | Dismissing a notification notes the user in the one active call of the channel and changes no other column, row or table; ended calls are not touched |
| `CallTheorems.CallLifecycle` | server/session.go:230-244 | In every reachable world a channel has at most one active call, an active call has between one session and the limit, an ended call has none, and each existing call was announced by exactly one call_start, no other by any |
| `CallTheorems.ParticipantsHistory` | server/session.go:222-228 | While a call is active its participants are exactly the users other than the bot who ever joined it; once ended, by a leave or by cleanup, its list enumerates the same users without repetition |
| `CallTheorems.EndedCallFrozen` | server/session.go:146-148 | No step rewrites the record of an ended call or gives it a session: it is not rejoined and not ended again |
| `CallTheorems.EndedCallFrozenForever` | server/state.go:357-407 | The same over any number of further steps |
| `CallTheorems.DepartsOnce` | server/session.go:287-302 | Over a whole run a session is announced as left at most once, and only when it had joined and is gone |
| `CallTheorems.RemovalIsIdempotent` | server/session.go:287-293 | After a removal, a further one of the same session in the same channel, with whatever other arguments, changes neither state nor database and publishes nothing |
| `CallTheorems.JobsAreUnique` | server/recording_api.go:76-89 | In every reachable world a call has at most one running recording and at most one running transcription |
| `CallTheorems.JobsNeverRevert` | server/recording_api.go:115-152 | From a reachable world on, through any steps, no job row disappears, an ended one never runs again, and the service job ID of a recording or transcription never changes once written |
| `CallInvariant.BaseFacts` | server/session.go:117-148 | What a join starts from is the channel's one active call, with its database rows and at least one session, or a new call without rows or sessions |
| `CallInvariant.NewCallIffSingleSession` | server/session.go:230-238 | After an admitted join the call has one session exactly when the join created it, exactly when its row does not exist yet, so that inserting and updating are each chosen rightly; the bot never creates one |
| `CallInvariant.HostAfterJoin` | server/session.go:206-220 | Admitting a session keeps the host rules whatever host the map order yields |
| `CallInvariant.HostAfterLeave` | server/session.go:435-452 | Removing a session that is not the last keeps the host rules whatever host the map order yields |
| `CallInvariant.StepKeeps` | server/session.go:83-475 | Every step of every operation, from any world that satisfies it, keeps the engine's invariant: tables, unique calls, host rules, participants, sessions, announcements, unique jobs |
| `CallInvariant.RunKeeps` | server/session.go:83-475 | Any run keeps the invariant, and the job rows only evolve forward over it |
| `CallStore.ActiveJobFound` | server/db/calls_jobs_store.go:112-150 | The query for running jobs yields none of a type exactly when none runs, otherwise a row of that call and type that runs: of all of them the one that started last, and of those the one of lowest ID |
| `CallStore.ActiveCallFound` | server/db/calls_store.go:215-247 | The query for a channel's active call yields none exactly when there is none, otherwise the active call of that channel that started last, and of those the one of lowest ID |
| `ClientReducers.SnapshotSyncs` | webapp/src/actions.ts:519-593 | Loading a snapshot brings a client in step with it whatever it showed before |
| `ClientReducers.ReceiveFrame` | webapp/src/reducers.ts:168-464 | Messages about other channels leave what a client shows for this one unchanged |
| `Replay.JoinReplay` | server/websocket.go:756-906 | A join keeps clients already in the call in step if and only if it is the bot's or its RTC session could be set up |
| `Replay.JoinerSyncs` | server/websocket.go:894-920 | The joining user's own client is in step after the messages of its join, wherever it started |
| `Replay.LeaveReplay` | server/session.go:303-452 | A leave keeps the clients that stay in step if and only if it is not that of a bot that shares or films: the screen-off message names nobody, and user_left does the clearing |
| `Replay.MakeHostReplay` | server/host_controls.go:34-75 | Changing the host keeps the clients in the call in step |
| `Replay.MediaReplay` | server/websocket.go:340-472 | A mute, hand or video message keeps clients in step if and only if its session is not the bot's |
| `Replay.ShareReplay` | server/websocket.go:167-241 | Turning screen sharing on or off, or being refused to, keeps clients in step |
| `ReplayRuns.FollowStep` | webapp/src/reducers.ts:168-464 | Over one step of the engine in any channel, voice, reactions and snapshots sent again included, a client that stays in its call and was in step stays in step if and only if the step is visible |
| `ReplayRuns.FollowSignal` | server/websocket.go:625-641 | A voice or reaction message, published without the lock to the users of a read that may be out of date, keeps a client in step if and only if it does not reach it or names a session of the call that is not the bot's |
| `ReplayRuns.LateSignal` | webapp/src/reducers.ts:259-310 | A voice message that is published after its session left makes every client it reaches show a session the server no longer has |
| `ReplayRuns.ReplayEqualsSnapshot` | webapp/src/reducers.ts:731-789 | A client that loads a snapshot and then reads every message the engine publishes over any run of visible steps, voice and reactions included, shows exactly the server's sessions (without the bot's), host and sharer |
| `ReplayRuns.ReplayWithTimers` | webapp/src/reducers.ts:388-408 | The same when the timers that clear reactions fire at any moments between the messages |
| `ClientReducers.TimersDoNotMatter` | webapp/src/websocket_handlers.ts:334-368 | Wherever the timers fire in a stream, hosts, sharers and all fields of all sessions but the reactions come out as without them |
| `ClientReducers.SignalShown` | webapp/src/reducers.ts:259-387 | A voice or reaction message about a session a client shows sets its voice on or off, or its reaction, and nothing else it shows |
| `ClientReducers.ReactionCleared` | webapp/src/reducers.ts:391-408 | The timer of a reaction clears it exactly if no later one is shown, and nothing else |
| `BatchJoins.ReadAfterWrite` | server/db/calls_jobs_store.go:112-150 | Writing columns the job query does not sort or select by keeps its choice, and it returns the row as written |
| `BatchJoins.JoinCoherent` | server/websocket.go:751-796 | The state a join hands on to the next operation of its batch is the state a fresh read of the database would return |
| `BatchJoins.BatchedJoinsAreSequential` | server/websocket.go:955-1005 | For any list of joins, refused ones and bots included, one read for the batch and one read for each join give the same database, the same messages and the same final state |
| `BatchLeaves.BotLeavesByRow` | server/session.go:358-427 | The job part of a leave ends exactly the rows of the jobs it ends, each in place, and touches no other |
| `BatchLeaves.JobsSimStep` | server/session.go:358-427 | One leave keeps the jobs in memory in step with those a fresh read would return |
| `BatchLeaves.BatchedLeavesAreSequential` | server/session.go:565-615 | For any list of leaves, repeated ones and ones after the end of the call included, one read for the batch and one for each leave give the same calls, sessions, recordings, transcriptions and messages; for captions see BatchCaptions.CaptionsAgreeIff |
| `BatchLeaves.SameRunningJobs` | server/session.go:565-615 | Stores equal in that sense have the same running jobs |
| `BatchCaptions.CaptionsAgreeIff` | server/session.go:565-615 | For any list of leaves, one read for the batch and one for each leave give the same captions rows, up to the time they ended, if and only if the tables before the batch have no two foremost captions of the channel's call of which some leave ends the first and a later one the second: by its connection, or as the recorder's while the transcription runs |
| `BatchCaptions.OngoingCaptions` | server/session.go:423-428 | Of an ongoing call, under exactly the same condition, the same captions are left running |
| `BatchCaptions.NextIsSecond` | server/db/calls_jobs_store.go:112-150 | The captions that sort second in the query's order are those the query returns once the first have ended, and there are none exactly when it then returns none |
| `BatchCaptions.FactsAfter` | server/session.go:358-427 | What a later leave depends on (sessions in the call, registrations of the running jobs) after a leave is computed from what it was before alone |
| `WitnessRuns.CaptionsCanDiverge` | server/transcription_api.go:54-66 | A run from the empty world, through a transcription timeout, to a call with two running captions rows, and two leaves for which a batch and separate leaves leave different captions running |
| `BatchHandlers.RunJoin` | server/websocket.go:751-930 | One callback of a join batch on the shared state is one step of the engine and hands on what a read would return |
| `BatchHandlers.RunJoins` | server/websocket.go:955-988 | The queued joins run on the one state read before them: database, messages and final state are those of the engine's run of the same joins, each of which locks and reads |
| `BatchHandlers.RunLeave` | server/session.go:509-549 | One callback of a leave batch on the shared object is one step of the engine and one leave of the batch as specified |
| `BatchHandlers.RunLeaves` | server/session.go:565-598 | The queued leaves run on the one object read before them: calls, sessions, recordings, transcriptions and messages are those of the engine's run of the same leaves, and the captions rows are, up to the time they ended, if and only if the condition of BatchCaptions.CaptionsAgreeIff holds before the batch |
| `CallJobs.CoupledShutdown` | server/recording_api.go:182-231 | The mutual recursion of the two stop operations ends, and from either end in the same memory and rows: both jobs ended, captions ended exactly if a transcription ran |
| `CallJobs.BotLeavesEndsBoth` | server/session.go:358-427 | Removing the session registered as either running job's bot ends both in memory; any other session ends neither |
| `CallJobs.RefusalsWriteTheSame` | server/recording_api.go:193-218 | Whatever stop requests the job service refuses, stopping a recording writes the same rows, and so does stopping a transcription whose recording has ended; asked to stop the transcription of a running recording, a refusal is exactly what leaves the recording running |
| `CallJobs.RefusedLeaveWritesTheSame` | server/session.go:358-427 | A leave writes the same job rows whatever the service refuses |
| `JobSafety.BotJoinsOK` | server/session.go:160-195 | A bot's join changes rows only forward and keeps memory and table the same |
| `JobSafety.JobStepSafe` | server/recording_api.go:76-152 | Any job step, the two halves of a start around the unlocked gap included, keeps at most one running recording and transcription per call and changes rows only forward |
| `JobSafety.RecReturnsSafe` | server/recording_api.go:117-152 | The second half of a start is safe on whatever recording runs when the lock is retaken |
| `JobSafety.TimeoutKeepsCaptions` | server/transcription_api.go:54-66 | A transcription that times out leaves its captions row running |
| `JobOutcomes.StopEndsBoth` | server/recording_api.go:182-231 | The host's stop of a running recording leaves neither job running and ends exactly the two jobs and the captions of a running transcription, each row in place; any other stop changes nothing |
| `JobOutcomes.StartCreatesOne` | server/recording_api.go:76-113 | The host's start adds exactly one running recording, with its creator, its time and nothing else set, and one pending answer if none ran; any other start changes nothing |
| `JobOutcomes.AnswerOutcome` | server/recording_api.go:113-165 | The job service's answer goes to the recording that runs when the lock is retaken: its ID if that has none, its error in any case, nothing if there is none; no other row changes; a transcription is begun exactly when the ID was taken and none runs |
| `JobOutcomes.RecordingTimeoutOutcome` | server/recording_api.go:23-74 | A recording of that job ID whose bot never started is ended with the timeout error, together with exactly the transcription and its captions; in every other case nothing changes |
| `JobOutcomes.TranscriptionTimeoutOutcome` | server/transcription_api.go:19-100 | A transcription of that job ID whose bot never started is ended with the timeout error, together with exactly the recording: its captions row is not; in every other case nothing changes |
| `JobOutcomes.ReportAcceptedIff` | server/bot_api.go:448-520 | A bot's report is accepted if and only if it names the running job of its type, has a known status and, for a start, the job has not started |
| `JobOutcomes.FailureEndsBoth` | server/bot_api.go:486-500 | An accepted failure leaves neither job running and keeps the bot's error on the reported row; captions end exactly with a failing recording while a transcription runs, and no other row changes |
| `JobOutcomes.StartsOnce` | server/bot_api.go:500-525 | An accepted start changes the start of the row and, for a transcription with captions on, of its captions, and nothing else; the job stays running and no second start of it is accepted |
| `JobOutcomes.BeginsTranscribing` | server/transcription_api.go:102-135 | A transcription is begun if and only if none runs and it has an ID; exactly its row and that of its captions are added, with creator and time and nothing else set, and no other row changes |
| `JobOutcomes.TranscriptionAnswerOutcome` | server/transcription_api.go:158-220 | The job service's answer about a transcription goes to the one that runs when the lock is retaken and, with captions on, to its captions: the ID only if it has none, the error and the end in any case, nothing if none runs; row by row, nothing else changes |
| `JobOutcomes.BotJoinsByRow` | server/session.go:160-195 | A bot let in for a job is registered with it and, for a transcription, with its captions if these have not started; row by row, nothing else changes |
| `JobOutcomes.JoinThenLeaveEndsBoth` | server/session.go:358-427 | After a bot was let in for a job, memory is what a read would return, and its leaving under the same connection ends both jobs in the table |
| `JobOutcomes.ReconnectMovesRegistration` | server/websocket.go:1407-1446 | When the bot's connection is replaced, exactly one registration moves: the recording's, or else the transcription's with that of its captions; no other column and no other row changes, and a read shows the same |
| `JobOutcomes.LeaveAfterReconnect` | server/session.go:358-427 | After a reconnect the bot's leave, matched on its original connection for the two jobs and on its current one for captions, ends exactly: both jobs if one of them is still registered under the original connection, judged on the table before the reconnect, and the captions under their own exact condition; no other row changes |
| `JobOutcomes.QuietAfterReconnect` | server/session.go:358-427 | Then neither job runs if and only if one was still registered or neither ran before |
| `JobOutcomes.FirstReconnect` | server/websocket.go:1065-1075 | For a first reconnect to a new connection that is the case if and only if both jobs were registered to the bot |
| `WitnessRuns.RecordingOutlivesItsBot` | server/websocket.go:1416-1427 | A run from the empty world in which the recorder joins, reconnects once and leaves, and its recording goes on without it |
| `JobOutcomes.BotLeaveEndsBoth` | server/session.go:358-427 | Removing a running job's registered bot leaves neither job running in the table; removing another session touches no recording or transcription; rows of other calls are never touched |
| `HostSuccession.IsUserIDInCall` | server/state.go:203-210 | True if and only if some session is the user's |
| `HostSuccession.OnlyUserLeft` | server/state.go:258-267 | True if and only if there are sessions and all are the user's |
| `HostSuccession.GetHostID` | server/state.go:172-201 | For any iteration order: the locked user if present, else the current host if present, else the earliest non-bot session's user, else nobody |
| `HostSuccession.NextHostIff` | server/state.go:172-201 | The hosts the rules allow are exactly those getHostID returns for some iteration order |
| `HostSuccession.NextHostIsUnique` | server/state.go:172-201 | When join times differ, all iteration orders return the same host |
| `CallHeap.Clone` | server/state.go:24-80 | The copy has the same value and the same nil parts, shares no mutable object with the original, and leaves the original as it was |
| `CallHandlers.StopRecordingJob` | server/recording_api.go:182-231 | Both jobs end, each changed row is written once and in order, also when the job service refuses; with no recording running nothing happens |
| `CallHandlers.StopTranscribingJob` | server/transcription_api.go:234-303 | The transcription and captions end; the recording stays running exactly if it ran and the job service refused to stop the transcription; what was written, in order |
| `JoinHandler.MapKeys` | server/utils.go:142-148 | A duplicate-free list of exactly the keys |
| `JoinHandler.AddUserSession` | server/session.go:83-244 | On success a fresh object holds the state the specification gives, for a host getHostID may name, and the rows are written; on every error, a failing write included, the original object is returned; its heap is unchanged either way |
| `EntryHandler.ListStates` | server/state.go:240-256 | Every session that is not the bot's, exactly once, with its user, mute, hand and camera as they are, for any map order |
| `EntryHandler.InsertIsNew` | server/session.go:230-233 | A state with one session after a join is of a call that has no row, so the insert cannot clash |
| `EntryHandler.AddSessionToCall` | server/websocket.go:751-930 | The returned state, the database and the messages are those of the join's specification, the post and announcement of a new call included |
| `LeaveHandler.RemoveUserSession` | server/session.go:282-475 | Fails exactly when there is no state or no such session, changing nothing; otherwise object, database and messages are those of the leave's specification, for a host and participant order the maps may yield |
| `ControlHandlers.ChangeHost` | server/host_controls.go:23-76 | Object, database and messages are those of the specification in every case: no call, no permission, the bot, the same host with and without a lock, a user not in the call |
| `ControlHandlers.AskToEnd` | server/host_controls.go:270-289 | The order to leave is published, once and to the whole channel, if and only if the call is ongoing and the host or an admin asks; the state is not written |
| `ReplayRuns.OrderToEnd` | server/host_controls.go:287-289 | What the order comes to: every client that reads it drops the call while nothing changes at the server; from anyone but the host or an admin no client hears of it |
| `ControlHandlers.Dismiss` | server/api.go:246-285 | The user is noted in the call's record, in the object and in its row, and nothing else changes; without a call nothing does |
| `ControlHandlers.Screen` | server/websocket.go:167-241 | Sharing starts only if nobody shares and stops only for the sharer; object, database and messages are those of the specification |
| `ControlHandlers.ChangeMedia` | server/websocket.go:340-472 | The session's flag is changed in the object and in its row, and one message is published to the users of the call; an unknown session changes nothing |
| `JobHandlers.CreateRecording` | server/recording_api.go:76-113 | Creates one running row exactly when no recording runs, and leaves memory alone |
| `JobHandlers.CreateTranscription` | server/transcription_api.go:102-150 | Creates the transcription row, and the captions row if captions are on, exactly when no transcription runs |
| `JobHandlers.RecordingRan` | server/recording_api.go:113-165 | What the re-read state and the answer make of the table is the specification's second half of a start |
| `JobHandlers.TranscribingRan` | server/transcription_api.go:150-210 | The same for a transcription with its captions |
| `JobHandlers.RecordingTimedOut` | server/recording_api.go:23-74 | The checker's writes are those of the specification, whatever the job service refuses to stop |
| `JobHandlers.TranscribingTimedOut` | server/transcription_api.go:19-100 | The checker's writes are those of the specification, the transcription row written in place of the captions row included, whatever the job service refuses to stop |
| `JobHandlers.PostJobsStatus` | server/bot_api.go:448-535 | A report is refused exactly when the specification refuses it, leaving the database alone, and otherwise has its effect, whatever the job service refuses to stop |
| `JobHandlers.BotReconnected` | server/websocket.go:1407-1446 | The new connection is registered with the job the old one was registered with, and with its captions |
| `CleanHandler.EndAllByRow` | server/state.go:374-405 | Ending every job the query returned ends exactly their rows |
| `CleanHandler.CleanCallState` | server/state.go:357-407 | The record is ended unless it was, its sessions and no others are deleted, its running jobs end, whatever order the maps yield |
| `Batching.RanInsideBatch` | server/batching/batcher.go:79-101 | Before any item that ran there is a successful pre-run with nothing but runs of items in between |
| `Batching.Batcher.Push` | server/batching/batcher.go:61-70 | Accepts exactly when the queue is not full, at its end, and otherwise changes nothing |
| `Batching.Batcher.Tick` | server/batching/batcher.go:72-107 | A tick runs exactly the items that were queued when it came, in order, between one pre-run and one post-run, whatever is pushed meanwhile; a failing pre-run leaves them queued; nothing accepted is lost |
| `BatcherRuns.NothingLost` | server/batching/batcher.go:61-113 | Over any interleaving, for every batcher ever made: executed followed by queued is accepted, in order; the queue stays within its size; a running batch finds its next item; every item ran inside a batch |
| `BatcherRuns.DroppedIsDone` | server/session.go:517-541 | A batcher dropped from the plugin's map has executed everything it accepted and accepts nothing in any continuation of the run |
| `ClusterMutex.RefreshBelowExpiry` | server/cluster/mutex.go:94-141 | For a valid configuration the refresh interval is below the expiry as stored, in whole seconds, if and only if the TTL is at least a second |
| `ClusterMutex.StoredTTL` | server/cluster/mutex.go:136-142 | The expiry given to the store is the greatest number of whole seconds within the TTL |
| `ClusterMutex.DefaultsAccepted` | server/cluster/mutex.go:80-112 | With only the TTL set, the configuration is accepted if and only if it is unset or at least ten seconds |
| `ClusterMutex.LeastTotalGrows` | server/cluster/mutex.go:203-222 | n waits take at least n poll intervals, and at least a second each from the point where the wait reaches a second |
| `ClusterMutex.Lock` | server/cluster/mutex.go:170-229 | The poll loop ends; wait k lies in [min(k P, 1s), 2 min(k P, 1s)); the waits fit before the deadline and their number is bounded by it; without success the deadline has come |
| `ClusterLease.MutualExclusion` | server/cluster/mutex.go:136-253 | Over any interleaving of nodes, failures and ticks in which holders refresh or delete before their lease expires, at most one goroutine is between a successful Lock and the deletion in its Unlock, and the key is there, unexpired |
| `ClusterLease.LateHolderLosesLock` | server/cluster/mutex.go:150-168 | After time passes, a waiting node's attempt makes two holders if and only if the holder was late |
| `ClusterLease.RefreshInTime` | server/cluster/mutex.go:186-201 | After a successful refresh, a pause of any interval below the stored expiry is in time |
| `ClusterLease.ConfiguredExclusion` | server/cluster/mutex.go:94-141 | For a valid configuration of at least a second, every run in which each held lease is written again or deleted within a refresh interval, and less than the remaining room late, is timely, so that at most one goroutine of the cluster holds the lock and the key is there as long as one does |
| `MutexObject.NewMutex` | server/cluster/mutex.go:80-133 | Fails exactly on an empty key, a refresh interval that is not positive or above half the TTL, or a poll interval outside (0, 1s], judged with 10s, 5s and 500ms in place of what is not set; otherwise the mutex has that configuration and is free |
| `MutexObject.Mutex.LockLocally` | server/cluster/mutex.go:170-176 | Taking the local mutex is the protocol's step and touches the store not at all |
| `MutexObject.Mutex.TryOnce` | server/cluster/mutex.go:136-148 | The lock is taken if and only if the store answers and the key is not there; then the key expires after exactly the configured TTL in whole seconds, else the store is untouched; it is the protocol's attempt with that TTL |
| `MutexObject.Mutex.RefreshTick` | server/cluster/mutex.go:150-201 | If the store answers and the key is there it expires that TTL from now, else the store is untouched and the refresher ends; it is the protocol's refresh with that TTL |
| `MutexObject.Mutex.GiveUp` | server/cluster/mutex.go:203-227 | A Lock whose context is done releases the local mutex and leaves the store alone |
| `MutexObject.Mutex.Unlock` | server/cluster/mutex.go:231-253 | After unlocking a held mutex the key is gone unless the deletion failed; a free mutex and the store are untouched; it is the protocol's unlock, stop of the refresher, and deletion, in that order |
| `SessionTriggers.RemovalHappensOnce` | server/session.go:491-502 | However the triggers interleave, no channel is closed twice, the removal runs at most once for each session object, and a session has been announced as left exactly once if it has left the call and not at all otherwise, also with several objects after reconnects |
| `SessionTriggers.LeavesIffRemovalRuns` | server/plugin.go:177-218 | When all goroutines are done, exactly the channels whose flag was swapped have been closed, and a joined session is out of the call if and only if a trigger won the race on one of its objects and that removal was not lost |
| `Fanout.GetUserIDsFromSessions` | server/utils.go:211-221 | Each user of a session exactly once, for any map order |
| `Fanout.PublishWebSocketEvent` | server/websocket.go:121-165 | Nothing is sent for the bot's own join or leave; otherwise the bot gets one copy if it exists, each listed user one, nobody else any; without a list, each member of the channel one |
| `Fanout.PublishToParticipants` | server/websocket.go:121-165 | Composed with the list of users: one copy for each distinct participant and one for the bot, whether or not it is in the call |
| `WebSocketClient.Client.Reconnect` | webapp/src/websocket.ts:207-227 | Closes when the outage has lasted thirty seconds, otherwise schedules the next attempt and lengthens the delay, as the specification says |
| `WebSocketClient.AtMostTenAttempts` | webapp/src/websocket.ts:207-227 | Over any run of closes, timers, opens and close calls, no outage has more than ten attempts |
| `WebSocketClient.TenthFailureCloses` | webapp/src/websocket.ts:213-217 | When the tenth attempt fails the client is closed for good and opens nothing in any continuation |
| `WebSocketClient.TenAttemptsHappen` | webapp/src/websocket.ts:207-227 | Ten is reached by sockets that fail at once |
| `WebSocketClient.OutageEnds` | webapp/src/websocket.ts:162-227 | Without a successful open, at most twenty-one events can happen: the run ends |
| `RtcdHosts.Manager.CheckHosts` | server/rtcd.go:108-168 | After a pass the known hosts are exactly those known before, the same objects, and the advertised ones that could be reached; each is flagged exactly when it is not advertised |
| `RtcdHosts.Manager.GetHostForNewCall` | server/rtcd.go:222-277 | Fails exactly when no host is both unflagged and connected; otherwise returns such a host, of least load among those that answered |

## Left out

- HTTP and RPC handlers, SQL text, JSON, WebRTC and rtcd clients, posts, ephemeral messages, push notifications, metrics,
  logging and translations; the database is the three tables of `CallStore`.
- Job-state, caption and dismissal events, the bot's recording events, and the stop requests sent to the bot when only it is left in a call
  (server/session.go:327-356): they change no call, session or job row.
- Screen-share time as a conserved sum: turning sharing off assigns where leaving adds (server/websocket.go:193,
  server/session.go:307). Both are modelled as they are; no claim is made about the total.
- The participants written to the post of an ended call: the deferred update at server/session.go:461-466 reads the map
  after it was cleared. Claims are about the call record.
- BatchLeaves.BatchedLeavesAreSequential: leaves captions out, because the code does not keep them the same
  (server/transcription_api.go:60-65); `BatchCaptions.CaptionsAgreeIff` has the exact condition.
- CallTheorems.JobsAreUnique: does not speak of captions, for the same reason.
- CallTheorems.JobsNeverRevert: the service job ID of a captions row may be written again, since the row outlives its
  transcription; and which answer of the job service an ID came from is not claimed.
- Failing writes: `JoinHandler.AddUserSession` covers a failure of any write. The other handlers and the whole runs
  are about a database whose writes succeed.
- LeaveHandler.RemoveUserSession: that a refused stop request leaves an error text on an ended job in memory; no row
  depends on it (`CallJobs.RefusedLeaveWritesTheSame`).
- CleanHandler.CleanCallState: one atomic step on a fresh record, as the comment on cleanCallState asks; that hostEnd calls
  it without the lock and cleanUpState on a record read before locking (server/host_controls.go:293-317,
  server/state.go:326-344) is not modelled, nor is the check of a call with its rtcd host.
- A read for a voice or reaction message that fails, after which nothing is published.
- Host controls that only ask a client to act (mute, lower hand, stop sharing, remove): they change no state here.
- Closing RTC sessions and the wait after an order to end a call.
- ClusterLease.MutualExclusion: assumes what it says about timing; TTLs of less than a second, which truncate to no expiry,
  are excluded by it.
- Unlocking a mutex from a goroutine that does not hold it while another is still trying, or twice at once: it would panic.
- BatcherRuns: that an item may block, and the timing of ticks.
- SessionTriggers: uniqueness of the plugin's session entries over several reconnects, and lock ordering in handleReconnect.
- Connection, call and job IDs are assumed unique, clocks positive, and the bot's ID not empty.
- The client's stream of recent reactions, captions, notices, recording states and dismissals, its optimistic dispatches, and
  when the host last changed. Reactions are modelled for a client connected to the channel's call; others drop them.
- RtcdHosts: the path that sends to a host that is missing, and rounding of loads, which are real numbers here.

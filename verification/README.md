# October in Dafny

October runs workflows of language-model agents as a stack of event-sourced actors: journals,
an actor runtime, agent sessions, workflows, jobs and a supervisor. Its promise is that live
operation and crash recovery reach the same state. This project models that stack and proves
the promise, together with the safety properties of each layer, for all inputs, all
interleavings and all crash points.

The loops and objects of the program are methods and classes here, each proved against a
specification function; state machines that run concurrently are functions over steps. The
properties are then lemmas about those functions and about every state they reach.

| layer | files |
|---|---|
| journals and runtime | `Base64`, `Framing`, `Journal`, `FileJournal`, `Runtime`, `ActorLoop`, `TornLives`, `Sessions` |
| agent loop and session | `Conversation`, `AgentLoop`, `AgentEvents`, `AgentRuns`, `AgentReplies`, `AgentRepetition`, `AgentAccounting`, `AgentHandoff`, `Agent`, `AgentRetries`, `AgentRecovery`, `AgentCrashes`, `Owing`, `AgentLives`, `AgentActor`, `Pipeline`, `SessionCrash`, `Turns` |
| workflow, jobs, supervisor | `Workflow`, `WorkflowActor`, `WorkflowRuns`, `Validation`, `Supervision`, `SupervisionActors`, `SupervisionRuns` |
| providers, executor, daemon | `Anthropic`, `Registry`, `HealthCheck`, `Frames` |

`Common` holds shared datatypes. `dafny verify dfyconfig.toml` checks everything.

How the outside enters: the provider, the toolbox, cancellation, fresh ids, the schema
validator, condition evaluation, snapshot copies, workflow launches and environment variables
are parameters, and every statement holds for all of them. Serialization of domain types is a
codec that decodes what it encodes; only the file journal's framing is modelled byte for byte.
A journal call succeeds, fails without effect, or is not reached because the process died.

Where the code does not do what a first reading or its comments suggest, the code is followed:

- Nudges, rejections and missing-handoff reminders enter the live history but are never
  emitted, so a session recovers something else than the live conversation once one occurred
  (`AgentRuns.JournaledIsLiveIff`, `AgentCrashes.NudgedCallStaysOpen`).
- The sanitizer repairs only the last reply, takes a call for answered when any result carries
  its id (`AgentCrashes.ReusedIdStaysOpen`), and its repairs are not journaled. The comment on
  `on_recovery_complete` says that a second crash simply re-synthesizes the continuation;
  that holds, once the second life journaled anything, exactly when the first crash left no
  open call (`AgentCrashes.SecondCrash`), and each later crash adds the same condition
  (`AgentLives.AnyLives`, `AgentLives.SpoiledIff`).
- Nothing sanitizes between the turns of a living session, so one nudged or rejected round, or
  a call left open that the next input does not answer (a late cancellation leaves such
  calls), makes every later turn ask with an ill-formed conversation
  (`AgentLives.NextTurnAsksWellIff`).
- A workflow keeps the reference to an agent that failed recoverably and stopped. Resuming then
  sends the message to a closed mailbox and ignores the error; the reply is lost, and so is
  every other until a restart or a fork (`WorkflowRuns.ResumptionArrivesIff`,
  `WorkflowRuns.ResumptionIsLost`).
- A command that begins a turn is not refused while one is in flight. Answering a pause after
  a restart has two of them share the session, recovery starting one and the answer another,
  unless the recovered turn has reported before the answer is posted
  (`Turns.AtMostOneInFlightIff`, `Turns.BeginBeforeReportOverlaps`,
  `Turns.AnswerAfterRestartOverlaps`).
- A torn tail is not cut off before the next append, which is then lost, and so is all that
  any later life appends (`Framing.AppendAfterTornTailIsLost`, `TornLives.TornLivesRecover`).
- A clean reply without blocks that follows a retried attempt is reported as the earlier
  error (`Anthropic.EmptyReplyAfterRetry`).
- `read_frame` reports a clean end for one to three stray header bytes too, not only at a
  frame boundary (`Frames.FramesReadBack`).
- `WorkflowResumed` is never logged and no handler but `on_resume` and `on_fork` looks at the
  status, so the next incarnation of a finished workflow can reopen it
  (`WorkflowRuns.TerminalStaysIff`, `WorkflowRuns.FinishedIsNotForever`).
- Rounds are alike when their joined fingerprints are equal, which need not mean equal calls.

## Model

| member | source | states |
|---|---|---|
| Runtime.CrashSafety | actor/src/runtime.rs:91-210 | for every command sequence, every failing journal call and a crash between any two calls, over either journal, recovery gives exactly the fold of the durable events and their number |
| Runtime.LifeIsSafe | actor/src/runtime.rs:118-210 | every cut of the journal calls of one life leaves a log that holds exactly the events made durable, and the live state and count agree with it at the end |
| Runtime.LiveEqualsRecovered | actor/src/runtime.rs:171-210 | at every command boundary the live state and sequence number are what recovery would return |
| Runtime.SnapshotsOnlyOptimise | actor/src/runtime.rs:91-167 | the snapshotting, compacting in-memory journal and the full-replay file journal recover the same state at the same number |
| Runtime.RecoveryIsExact | actor/src/runtime.rs:91-113 | from any log that holds a history, whatever of it was compacted, recovery rebuilds that history's fold and length |
| Runtime.TurnStepSafe | actor/src/runtime.rs:189-208 | one handled command keeps the log exact after each of its journal calls, saving a snapshot without compacting included |
| Runtime.TurnMakesDurable | actor/src/runtime.rs:189-208 | a turn makes durable exactly the events its effect carries, whether it goes on, snapshots or stops, if they encode and the persist succeeds |
| Runtime.LifeMakesDurable | actor/src/runtime.rs:171-210 | an uncut life makes durable exactly what its turns ask for, up to and with the first that stops |
| Runtime.UncutLifeIsKept | actor/src/runtime.rs:171-210 | after an uncut life recovery gives what was there and then all of that |
| Runtime.SnapshotsAreTaken | actor/src/runtime.rs:148-208 | a snapshot asked for and saved is there afterwards, of the state and number then reached, with the log emptied if compaction succeeded; no other turn touches it |
| Runtime.RecoveryFailsIff | actor/src/runtime.rs:91-113 | recovery fails exactly when the snapshot or an event replayed after it does not decode |
| Runtime.LivesHold | actor/src/runtime.rs:171-210 | the log stays exact across any number of lives, each recovering first |
| Runtime.TornAppendRecovers | actor/src/file_journal.rs:47-74 | a process killed inside a file append, at any byte, recovers as if the append had not begun |
| Runtime.ForkHoldsSnapshottedPrefix | actor/src/journal.rs:133-149 | a copied snapshot makes the target hold exactly the source's events up to that snapshot |
| TornLives.TornLivesRecover | actor/src/file_journal.rs:47-160 | over any number of lives, each killed between two journal calls or at any byte of an append, recovery gives the fold and the number of the events whose append completed before any append was torn; these are all the durable events exactly when no append completed after a tear |
| TornLives.AllReadIff | actor/src/file_journal.rs:47-74 | of a history of completed and torn appends, everything is still read exactly when nothing was appended after a tear |
| ActorLoop.Recover | actor/src/runtime.rs:91-113 | the recovery loop computes the specified recovery for either journal |
| ActorLoop.EncodeEvents | actor/src/runtime.rs:125-134 | all events encoded, or nothing at the first that cannot be |
| ActorLoop.PersistEvents | actor/src/runtime.rs:118-144 | all events become durable and are applied and counted, or none are |
| ActorLoop.SnapshotState | actor/src/runtime.rs:148-167 | saves, and compacts only if saving succeeded |
| ActorLoop.HandleTurn | actor/src/runtime.rs:190-208 | each effect makes exactly its journal calls, in order |
| ActorLoop.RunActor | actor/src/runtime.rs:171-210 | the lifecycle loop: recover, then handle commands until one stops the actor; nothing is touched if recovery fails |
| Journal.InMemoryJournal.Persist | actor/src/journal.rs:78-86 | appends with consecutive numbers that survive compaction; other logs unchanged |
| Journal.InMemoryJournal.Replay | actor/src/journal.rs:88-106 | exactly the events numbered above the given one, in order |
| Journal.InMemoryJournal.SaveSnapshot | actor/src/journal.rs:108-119 | replaces the snapshot and never lowers the last number |
| Journal.InMemoryJournal.LatestSnapshot | actor/src/journal.rs:121-123 | the snapshot saved last |
| Journal.InMemoryJournal.DeleteEventsBefore | actor/src/journal.rs:125-131 | keeps exactly the events numbered above the given one |
| Journal.InMemoryJournal.CopySnapshot | actor/src/journal.rs:133-149 | fails exactly when the source has no snapshot; otherwise seeds the target and continues its numbering |
| Journal.InMemoryJournal.Clear | actor/src/journal.rs:151-154 | leaves an empty log, others unchanged |
| Journal.NewerNumbered | actor/src/journal.rs:88-106 | replay after number n of events numbered from a cut skips exactly the first of them |
| Journal.NewerKeepsExactly | actor/src/journal.rs:88-131 | replay and compaction keep exactly the events numbered above the given number |
| Journal.WritesMean | actor/src/journal.rs:78-131 | appending numbers on from the last number, a snapshot never lowers it, compaction touches neither number nor snapshot |
| FileJournal.FileJournal.Persist | actor/src/file_journal.rs:47-74 | a non-empty batch appends exactly one line; an empty one nothing |
| FileJournal.FileJournal.Replay | actor/src/file_journal.rs:76-83 | the recovered events numbered above the given one |
| FileJournal.FileJournal.Clear | actor/src/file_journal.rs:106-112 | removes the log and no other |
| FileJournal.DecodeAfter | actor/src/file_journal.rs:119-160 | the decoding loop with its early exits yields the events of the complete lines before the first bad one, numbered above the given one |
| FileJournal.DecodeBatch | actor/src/file_journal.rs:147-157 | numbers and keeps the events of one line up to the first that does not decode |
| FileJournal.ReadLine | actor/src/file_journal.rs:135-157 | an empty, undecodable or unparsable line stops replay |
| Framing.ParsePrint | actor/src/file_journal.rs:56-58 | reading a printed JSON array of strings (sections 5 and 7 of RFC 8259) gives the strings back |
| Framing.LineOnDisk | actor/src/file_journal.rs:56-60 | byte for byte, the line of a batch of two events: base64 of a JSON array of base64 texts, and a newline |
| Framing.ReadBack | actor/src/file_journal.rs:47-160 | persist then decode is the identity on any list of non-empty batches |
| Framing.TornWrite | actor/src/file_journal.rs:115-160 | a last line cut at any byte, even just before its newline, drops that batch and no other |
| Framing.MergedLineIsUnreadable | actor/src/file_journal.rs:62-68 | a whole line appended to the first bytes of another never decodes |
| Framing.MergedTailIsUnreadable | actor/src/file_journal.rs:62-68 | the same after any torn tail, one that several cut-off appends left one after the other included |
| Framing.AppendAfterTornTailIsLost | actor/src/file_journal.rs:62-68 | after a torn tail the next batch, and every later one, is never read again |
| Framing.AppendRecoveredIff | actor/src/file_journal.rs:62-68 | an append is recovered exactly when the file was empty or ended in a newline |
| Base64.RoundTrip | actor/src/file_journal.rs:56-59 | decoding inverts encoding (section 4 of RFC 4648) |
| Base64.Canonical | actor/src/file_journal.rs:139-142 | the decoder accepts nothing but what the encoder writes |
| Base64.EncodeShape | actor/src/file_journal.rs:56-60 | encoded text is whole quanta of alphabet and padding, so never a newline, quote or backslash |
| Base64.SymbolsAreStandard | actor/src/file_journal.rs:56-59 | the alphabet is that of table 1 of RFC 4648 |
| Base64.StandardVectors | actor/src/file_journal.rs:56-59 | the test vectors of section 10 of RFC 4648 |
| Base64.FrontThenWhole | actor/src/file_journal.rs:62-68 | any accepted text that ends in a whole encoding, whatever stands in front, decodes to a front and then the encoded data |
| Base64.DecodeCutThenWhole | actor/src/file_journal.rs:62-68 | what decodes when a cut-off text is followed by a whole one: nothing, or the triples before the cut |
| Sessions.SessionRecovers | workflow/src/agent_actor.rs:325-339 | an agent session on either journal recovers the conversation its durable events tell |
| Sessions.WorkflowRecovers | workflow/src/workflow_actor.rs:549-579 | a workflow recovers the state its event log folds to |
| Sessions.SupervisorRecovers | supervisor/src/supervisor_actor.rs:133-159 | the supervisor recovers the registry its event log folds to |
| Conversation.WellFormedMeans | agentcore/src/agent.rs:371-373 | what a well-formed conversation is at each position: exactly one result per call, in order, and no other result |
| Conversation.WellFormedFront | agentcore/src/agent.rs:371-373 | a well-formed front leaves it to the rest whether the whole is well formed |
| Conversation.AnsweredAreCalled | workflow/src/agent_actor.rs:489-497 | in a well-formed conversation the answered ids are exactly the called ones |
| AgentLoop.Build | agentcore/src/agent.rs:103-143 | accepts exactly when the nudge threshold is below the stuck threshold and the handoff tool, if any, is registered with a schema that compiles |
| AgentLoop.FindCall | agentcore/src/agent.rs:341-345 | finds a call of the given name if there is one |
| Agents.Agent.Ask | agentcore/src/agent.rs:266-276 | emits the start and the pieces of the reply, then returns the reply |
| Agents.Agent.Execute | agentcore/src/agent.rs:430-459 | one result per call, in order, each with its two events |
| Agents.Agent.Nudge | agentcore/src/agent.rs:411-422 | one advice per call, in order, and no event |
| Agents.Agent.Reject | agentcore/src/agent.rs:373-386 | one error per call, in order, with the reason for the handoff call itself, and no event |
| Agents.Agent.Run | agentcore/src/agent.rs:209-461 | the loop over history, usage, counters and the fingerprint queue computes the specified run: same outcome, same history, same events in the same order |
| AgentRuns.RequestsWellFormed | agentcore/src/agent.rs:241-264 | whenever the provider is asked, each assistant message is followed by exactly one result per call, through the execute, nudge, rejection and missing-handoff paths alike |
| AgentRuns.RunsAreShaped | agentcore/src/agent.rs:285-459 | at every point of a run the history is what was given plus the rounds, the emitted events tell the rounds without synthesized answers, and every round is answered as its kind demands |
| AgentRuns.RunningRounds | agentcore/src/agent.rs:241-461 | only the last round of a run can be one that ends it |
| AgentRuns.LiveWellFormed | agentcore/src/agent.rs:285-459 | rounds that did not end the run make a well-formed conversation |
| AgentRuns.JournaledAgainstLive | workflow/src/agent_actor.rs:325-339 | the folded conversation is the live one with the synthesized nudge and rejection messages left out |
| AgentEvents.JournaledIffCoarse | workflow/src/agent_actor.rs:460-487 | of what a run streams its messages, tool results and completions are journaled, each as it is, and nothing else |
| AgentRuns.JournaledIsLiveIff | agentcore/src/agent.rs:303-421 | the folded conversation is the live one exactly when no round was nudged, rejected or asked to hand off |
| AgentReplies.RoundsAreAnswers | agentcore/src/agent.rs:241-459 | at every moment the rounds are the provider's answers one after the other, and each executed round runs the tools on from where the last one left off |
| AgentReplies.EveryCallCounts | agentcore/src/agent.rs:169-175 | rounds that differ in one call, wherever it stands, are alike exactly when that call shows the same name and input |
| AgentReplies.TextStandsInOrder | agentcore/src/agent.rs:156-167 | a text part adds its text in its place, any other part nothing |
| AgentReplies.CallStandsInOrder | agentcore/src/agent.rs:146-154 | a tool call part is the call of its own id, name and input, in its place |
| AgentReplies.CompletionDeliversTheText | agentcore/src/agent.rs:303-332 | a run that completes delivers the text of its last reply, which called nothing |
| AgentReplies.CancellationIsHeeded | agentcore/src/agent.rs:241-428 | cancelled before a request the run asks nobody, cancelled after the reply it runs no tool |
| AgentReplies.AdviceAndRejections | agentcore/src/agent.rs:320-422 | what each call of a nudged or rejected round is answered, and what follows a reply that should have handed off |
| AgentReplies.ExecutionsAreTold | agentcore/src/agent.rs:430-459 | each executed call is announced and then reported with its own outcome, in order |
| AgentReplies.FailuresSayWhy | agentcore/src/agent.rs:241-428 | each error names what it is about: the limit reached, the tool called over and over, the provider's own error, the handoff tool |
| AgentRepetition.StuckAndNudgeAreExact | agentcore/src/agent.rs:392-424 | the queue always equals the last fingerprints; a counted round is nudged exactly when nudge_threshold <= n < stuck_threshold and all n are equal; the run fails as stuck exactly when the last stuck_threshold are equal |
| AgentRepetition.NoNudgeAfterDifference | agentcore/src/agent.rs:407-424 | once two counted rounds differed no later round is nudged |
| AgentHandoff.HandoffsAreExact | agentcore/src/agent.rs:298-390 | a reply hands off exactly when its only call is a valid one of the handoff tool; one with such a call is otherwise sent back, one without calls reminded, each at most handoff_max_retries times before the run fails; all others reach the repetition check |
| AgentAccounting.RunsAccount | agentcore/src/agent.rs:224-390 | at every moment: provider calls bounded by max_iterations, usage the wrapped sum, one completion event with the true count on success and none on failure, a handoff only on a sole valid call |
| AgentAccounting.RunsHalt | agentcore/src/agent.rs:241-251 | every run halts, whatever the provider answers |
| AgentAccounting.UsageIsSumIff | agentcore/src/agent.rs:282-283 | the reported usage is the true sum exactly when both sums fit in 32 bits |
| AgentRetries.HandoffFindsItsCall | workflow/src/agent_actor.rs:526-547 | the id found by scanning the captured events backwards is that of the sole call the run handed off on |
| AgentRetries.TurnsReportTheirLastRun | workflow/src/agent_actor.rs:550-627 | a turn reports what its last attempt came to; a failure is recoverable exactly if it is the provider's, and such a one is reported only when every retry is used up |
| AgentRetries.RunTurn | workflow/src/agent_actor.rs:550-627 | the retry loop computes the specified turn and reports every attempt to the one sink |
| AgentRetries.JournalAcrossRetries | workflow/src/agent_actor.rs:348-370 | across retries the journal folds to the history, the input exactly once, then each attempt's messages in order |
| AgentRetries.TurnBounds | workflow/src/agent_actor.rs:562-626 | at most (max_retries + 1) * max_iterations provider calls; one completion event on success, carrying the usage of the last attempt alone, none otherwise |
| AgentRecovery.SanitizeForResume | workflow/src/agent_actor.rs:489-523 | the pushing loop adds one error result per call of the last assistant message that no result answers |
| AgentRecovery.SanitizeIdle | workflow/src/agent_actor.rs:489-523 | a well-formed conversation is left as it is |
| AgentRecovery.SanitizeCompletesIff | workflow/src/agent_actor.rs:489-523 | after any front, a reply and the first of its results: the sanitized whole is well formed exactly when the front was and no remaining call has an id answered already, and then one error result per remaining call was added, in order |
| AgentRecovery.UniqueIdsSuffice | workflow/src/agent_actor.rs:489-514 | ids that are never used twice rule out calls that only seem answered |
| AgentRecovery.JournaledWellFormedIff | workflow/src/agent_actor.rs:325-339 | journaled rounds after a prior conversation are well formed exactly when the prior is and none was nudged or rejected |
| AgentRecovery.RecoverRounds | workflow/src/agent_actor.rs:387-397 | the sanitized remains of a turn are well formed exactly when the conversation before it is, no round before the last reply was nudged or rejected, and no open call has an id answered already |
| AgentRecovery.CrashRecovery | workflow/src/agent_actor.rs:387-397 | the same for every cut of the events of every turn, retries included, with the result spelled out: the cut, then one error result per open call |
| SessionCrash.SessionDies | workflow/src/agent_actor.rs:144-397 | whatever the interleaving of run, channel, forwarder, mailbox and session and whenever the process dies, if no persist failed: what the session recovers, exactly when it is well formed once sanitized, and which error results were added |
| SessionCrash.BeforeTheInput | workflow/src/agent_actor.rs:381-397 | dying before the input is durable: a complete conversation is left as it is, a paused one gets one error result for the pending call unless its id is answered already |
| AgentCrashes.RecoveryIsLivePrefixIff | workflow/src/agent_actor.rs:387-397 | what is recovered is a prefix of the live history exactly when every earlier round executed its calls, and with unique ids it is then completed by one error result per open call |
| AgentCrashes.NeedsNoRepairIff | workflow/src/agent_actor.rs:387-397 | what is left of a turn needs no repair exactly when what stood before it needs none, no earlier round was nudged or rejected and no call is open |
| AgentCrashes.NextCrash | workflow/src/agent_actor.rs:381-397 | a life that goes on from any recovered conversation, and journals something before it dies in turn, leaves one that is mended exactly when the recovered one needed no repair, no earlier round was nudged or rejected, and no open call has an id answered already |
| AgentCrashes.SecondCrash | workflow/src/agent_actor.rs:381-397 | two lives, each cut anywhere: the exact condition on their rounds, open calls and ids under which the second recovery is well formed, whether or not the second life journaled anything |
| Owing.WellFormedIffNothingOwed | agentcore/src/agent.rs:371-373 | read message by message, a conversation is well formed exactly when every message fits and no call is left owed |
| Owing.SanitizeMendsIff | workflow/src/agent_actor.rs:489-523 | of every conversation whatever: sanitized it is well formed exactly when every message fits and no call owed has an id answered already; and then one error result per call owed was added, in order |
| Owing.RoundsOwe | workflow/src/agent_actor.rs:325-339 | what any cut of a turn leaves owed behind any conversation: nothing sensible unless that was well formed and no earlier round was nudged or rejected, and else the calls left open |
| AgentLives.AnyLives | workflow/src/agent_actor.rs:341-397 | any number of lives, each of any number of turns begun by a user, an answer or recovery, each cut anywhere: the recovered conversation is what the turns left, one after the other; told turn by turn, what it owes decides whether it is well formed, whether the sanitizer makes it so and with what, and whether a next input fits |
| AgentLives.SpoiledIff | workflow/src/agent_actor.rs:341-397 | no later recovery can make the conversation good exactly when some turn spoiled it, by an input that did not fit, or by saying something while calls were owed or after a nudged or rejected round of its own |
| AgentLives.NextTurnAsksWellIff | workflow/src/agent_actor.rs:341-369 | after any turns of a life, each begun by a user's input or the answer to a pause, the next one, if it asks the provider at all, asks with well-formed conversations only exactly when the first input fitted and every turn led to the input after it |
| AgentLives.TurnLeads | workflow/src/agent_actor.rs:341-369 | after one turn the next input, a user's or the answer to a pause, fits exactly when the turn's own did and the turn leads to it: settled for a user's, and for an answer concluded, with no earlier round nudged or rejected, and waiting for just that call |
| AgentLives.TurnsLeadOn | workflow/src/agent_actor.rs:341-369 | after any turns of a life, each begun by a user's input or the answer to a pause, the next input fits exactly when the first did and every turn led to the input after it |
| AgentLives.AsksWellIff | agentcore/src/agent.rs:241-264 | a run asks the provider with well-formed conversations only exactly when its input fits behind its history, or it asks nobody |
| AgentCrashes.ReusedIdStaysOpen | workflow/src/agent_actor.rs:490-514 | the smallest conversation, from its input on, in which a reused call id keeps the sanitizer from answering an open call |
| AgentCrashes.TwoCrashesLoseAnAnswer | workflow/src/agent_actor.rs:381-397 | the smallest conversation that two crashes leave with an unanswered call |
| AgentCrashes.NudgedCallStaysOpen | agentcore/src/agent.rs:410-424 | the shortest run under the default thresholds that recovery cannot mend: the same call three times, the third nudged, then a last reply |
| AgentCrashes.ResumeAnswersThePause | workflow/src/agent_actor.rs:359-369 | answering a call resumes a well-formed conversation exactly when it is the reported one and no earlier round was nudged or rejected |
| AgentActors.PauseNamesItsCall | workflow/src/agent_actor.rs:208-300 | a session stops exactly when it reports a conclusion or a failure and closes a cancelled turn in the journal, reporting nothing; it pauses only if it may ask, completes with plain text only without a conclude tool, and its pause names the call its conversation ends with |
| AgentActors.ReportsSay | workflow/src/agent_actor.rs:208-300 | which text, output, question or error is reported: a question exactly if the session may ask and the payload says so, an output from its member when both tools are at hand |
| AgentActors.CommandsContinueTheConversation | workflow/src/agent_actor.rs:341-379 | a command that starts a turn starts it from the conversation so far and persists just its input: history and input are what the persisted event folds to |
| AgentLives.HandlersBeginLegs | workflow/src/agent_actor.rs:341-397 | the turns of the lives below are those that the command and recovery handlers start |
| AgentLives.ConverseFollowsTheHandler | workflow/src/agent_actor.rs:341-369 | turn after turn of a life, the conversation grows as the handler says |
| Pipeline.PersistenceFollowsEmission | workflow/src/agent_actor.rs:144-254 | in every interleaving of run, channel, forwarder, mailbox and session the events tried are a prefix of input, emissions in order and, for a cancelled turn, the closing event; the closing event only when the report is taken, and then all of them |
| Pipeline.ExecKeepsOrder | workflow/src/agent_actor.rs:157-254 | the ordering invariant of every reachable state, closing event included |
| Pipeline.CrashLeavesACut | workflow/src/agent_actor.rs:157-254 | a crash at any moment leaves a prefix of all that the turn was to journal, if no persist failed |
| Pipeline.EveryTurnCanComplete | workflow/src/agent_actor.rs:144-254 | whatever a turn is to journal, some interleaving journals all of it and takes its report |
| Turns.JournalIsAShuffle | workflow/src/agent_actor.rs:144-254 | with any number of turns in flight, each with its own run and forwarder, the journal is an order-preserving shuffle: exactly the events kept, each of one turn, those tried for a turn a prefix of its input, emissions and closing event, and all of them once its report is taken |
| Turns.AtMostOneInFlightIff | workflow/src/agent_actor.rs:341-397 | at most one turn is ever in flight exactly when no command that begins one is taken while the session believes one to be running |
| Turns.BeginBeforeReportOverlaps | workflow/src/agent_actor.rs:341-397 | a command that begins a turn, posted before the running turn has reported, makes two overlap in every interleaving in which it is taken, whatever else is waiting |
| Turns.AnswerAfterRestartOverlaps | workflow/src/agent_actor.rs:341-397 | answering a pause right after a restart leaves two turns in flight |
| Turns.ReachableSound | workflow/src/agent_actor.rs:157-254 | every turn, seen by itself, keeps the ordering invariant of a single one in every reachable state |
| Workflow.FindNextTransition | workflow/src/workflow_actor.rs:509-533 | none exactly when no transition matches; otherwise the first that does |
| Workflow.FindAgent | workflow/src/workflow_actor.rs:159-161 | finds an agent of the given name if one is defined |
| WorkflowActors.WorkflowActor.FindNext | workflow/src/workflow_actor.rs:509-533 | the scan returns the first matching transition |
| WorkflowRuns.ReachableSound | workflow/src/workflow_actor.rs:549-662 | the invariant of every log reachable with stale and duplicate reports, failing persists, forks, crashes and recoveries |
| WorkflowRuns.CurrentMeans | workflow/src/workflow_actor.rs:549-579 | the current agent and session are those of the last event that introduced any |
| WorkflowRuns.HandOverExactlyOnce | workflow/src/workflow_actor.rs:259-346 | no two hand-overs leave the same session; each leaves the current one along the first matching transition, and its target was spawned and told to run on that output |
| WorkflowRuns.StartsAreTold | workflow/src/workflow_actor.rs:213-502 | an answer that logs the start of an agent spawns an agent of that name for that session, tells it to run on the logged input, and does nothing else |
| WorkflowRuns.ReachableTold | workflow/src/workflow_actor.rs:213-502 | so every agent that a reachable log says was started was spawned and told to run |
| WorkflowRuns.InputsAreHandedOn | workflow/src/workflow_actor.rs:213-502 | the first agent starts on the workflow's input, a forked one on its message, the next on what the last concluded with, and the workflow finishes with that |
| WorkflowRuns.ForksNeedTheirSnapshot | workflow/src/workflow_actor.rs:449-502 | a fork starts an agent exactly if suspended with one that can run and the snapshot was copied, and fails the workflow if it was not |
| WorkflowRuns.StartsAreJustified | workflow/src/workflow_actor.rs:213-257 | every started agent can run, was spawned and told to run on its input, and is the start agent, the target just logged, or the current agent of a suspended workflow |
| WorkflowRuns.StatusInvariant | workflow/src/workflow_actor.rs:549-579 | running or paused implies agent and session; paused exactly when the last event is a pause, of the current session, with the pending call; live state equals recovered state |
| WorkflowRuns.StatusIsTheLastEvents | workflow/src/workflow_actor.rs:549-579 | the status of any log is that of its last event, each status exactly after its own events |
| WorkflowRuns.NoticesTellTheLog | workflow/src/workflow_actor.rs:188-640 | observers are told that a workflow finished, with its output, or was suspended exactly when that is logged; that it failed or waits only if it is |
| WorkflowRuns.RecoveryRespawns | workflow/src/workflow_actor.rs:647-662 | in every reachable recovery a running workflow holds its current agent, spawned anew and told nothing, and any other holds none |
| WorkflowRuns.StaleReportsChangeNothing | workflow/src/workflow_actor.rs:188-190 | a report from a session that is not current changes nothing |
| WorkflowRuns.CommandsAddressTheCurrentSession | workflow/src/workflow_actor.rs:348-447 | while every persist has succeeded, cancelling and resuming address the current session's agent and no other; whether it is still there is the next row's matter |
| WorkflowRuns.ResumptionArrivesIff | workflow/src/workflow_actor.rs:348-447 | in every reachable incarnation whose persists succeeded, a resumption reaches a running agent of the current session exactly when the status calls for one and that agent has neither been reported to have failed recoverably nor stopped with its report under way since this incarnation spawned it |
| WorkflowRuns.LostUntilRestart | workflow/src/workflow_actor.rs:369-436 | once its agent left, no resumption of that session arrives for the rest of the incarnation |
| WorkflowRuns.ResumptionIsLost | workflow/src/workflow_actor.rs:400-436 | the smallest history that loses a resumption: started, failed recoverably, resumed; after a restart the same message arrives |
| WorkflowRuns.TerminalEndsTheIncarnation | workflow/src/workflow_actor.rs:273-289 | an incarnation that logs a terminal event is over |
| WorkflowRuns.TerminalStaysIff | workflow/src/workflow_actor.rs:581-640 | in every reachable incarnation of a finished or failed workflow, a command leaves it terminal exactly when its answer is not persisted or it is a resumption, a fork, a stale report, an unrecoverable failure, or a start or a conclusion that leads to no agent that can run |
| WorkflowRuns.FinishedIsNotForever | workflow/src/workflow_actor.rs:589-595 | the smallest history of a finished workflow that is reopened: concluded, recovered, then cancelled |
| Validation.Validate | cli/src/validate.rs:13-60 | reports everything that is wrong and nothing else |
| Validation.ProblemsMean | cli/src/validate.rs:13-60 | what each problem says of the definition and the configuration, in both directions |
| Validation.CheckTransitions | cli/src/validate.rs:28-47 | exactly the undefined targets and bad conditions of one agent |
| Validation.CheckAgents | cli/src/validate.rs:21-48 | exactly the problems of all agents |
| Validation.CheckModels | cli/src/validate.rs:50-57 | exactly the models with unknown providers, in whatever order they are visited |
| Validation.BuildRegistry | cli/src/config.rs:190-252 | every model gets a provider, or an unusable model is named |
| Validation.FailsStructurallyIff | workflow/src/workflow_actor.rs:213-346 | with a runnable current agent, an answer fails for want of an agent or provider exactly when the agent it leads to cannot run |
| Validation.CheckedNeverFailsStructurally | cli/src/validate.rs:13-60 | once validation reports nothing and the registry is built, no reachable step fails so |
| SupervisionActors.SupervisorActor.ShutdownChildren | supervisor/src/supervisor_actor.rs:226-242 | every child is told once, then forgotten |
| SupervisionActors.SupervisorActor.RecoveryComplete | supervisor/src/supervisor_actor.rs:270-284 | spawns exactly the jobs whose rows are not terminal |
| SupervisionRuns.ReachableSound | supervisor/src/supervisor_actor.rs:133-284 | in every interleaving a terminal word is a job's last word, and terminal rows have nothing pending |
| SupervisionRuns.RowMeans | supervisor/src/supervisor_actor.rs:133-159 | a row exists exactly when the last creation or removal of the job is a submission, with that submission's data and the status changed to last |
| Supervision.ReportsAreRecorded | supervisor/src/job_actor.rs:357-495 | a job reports exactly the status that it records, but for its start, and ends exactly when that is terminal |
| Supervision.SubmittedJobsStart | supervisor/src/supervisor_actor.rs:161-180 | a submission creates a job and tells it to start, upon which it launches its workflow or says that it cannot |
| Supervision.RequestsReachTheWorkflow | supervisor/src/supervisor_actor.rs:191-206 | stopping a job cancels its workflow, resuming resumes it with the message or launches one to resume, and nobody else is told anything |
| Supervision.ShutdownReachesEveryJob | supervisor/src/supervisor_actor.rs:226-242 | every job is told to shut down, lets go of its workflow and records nothing |
| SupervisionRuns.NoticesReachTheRow | supervisor/src/job_actor.rs:392-418 | undisturbed, what a workflow tells its job becomes the job's record and its row's status |
| SupervisionRuns.SubmissionsReachTheJob | supervisor/src/supervisor_actor.rs:161-180 | undisturbed, a submission gets a row and a job that holds its workflow and has recorded its start |
| SupervisionRuns.RestartRelaunches | supervisor/src/supervisor_actor.rs:270-284 | a restarted process has exactly the jobs whose rows are not terminal, and each relaunches its workflow exactly if it was running |
| SupervisionRuns.SupervisionIsSafe | supervisor/src/supervisor_actor.rs:133-159 | between any two moments of a history with crashes: a terminal row is unchanged or removed, and a row that is gone stays gone |
| SupervisionRuns.RowsComeAndGo | supervisor/src/supervisor_actor.rs:161-225 | only a freshly submitted id gains a row, and only a terminal row vanishes |
| Anthropic.Assembler.Read | providers/anthropic/src/lib.rs:479-524 | the sorted, deduplicated indices give the parts in index order |
| Anthropic.Assembler.Consume | providers/anthropic/src/lib.rs:355-466 | one attempt's stream, folded |
| Anthropic.Assembler.Complete | providers/anthropic/src/lib.rs:329-533 | the retry loop returns the specified reply or error |
| Anthropic.Ascending | providers/anthropic/src/lib.rs:480-487 | sorted and without duplicates, with exactly the given elements |
| Anthropic.AscendingReadsInOrder | providers/anthropic/src/lib.rs:489-524 | reading any ascending list of the used indices gives all parts in index order |
| Anthropic.ReorderingIsInvisible | providers/anthropic/src/lib.rs:361-524 | any reordering that keeps each index's own events in order gives the same reply |
| Anthropic.BlockIsItsDeltas | providers/anthropic/src/lib.rs:384-444 | each block is the in-order concatenation of its own deltas |
| Anthropic.ToolBlockBecomesCall | providers/anthropic/src/lib.rs:378-513 | a tool block becomes the call of the id and name it was started with, on its joined JSON deltas parsed, or on an empty object |
| Anthropic.TextBlockBecomesText | providers/anthropic/src/lib.rs:378-495 | a text block becomes its joined deltas, or nothing if they are empty |
| Anthropic.ThinkingBlockBecomesThought | providers/anthropic/src/lib.rs:378-524 | a thinking block becomes its joined deltas with the joined signature, if any, or nothing without a text |
| Anthropic.LowerIndexComesFirst | providers/anthropic/src/lib.rs:479-524 | the part of a lower index stands before that of a higher one |
| Anthropic.ToolInputIsShown | providers/anthropic/src/lib.rs:389-444 | the sink hears of a tool's input under the id that its block was started with |
| Anthropic.LastDeltaDecides | providers/anthropic/src/lib.rs:446-455 | the last message delta decides the stop reason, and the output count if it says so |
| Anthropic.LastStartDecides | providers/anthropic/src/lib.rs:379-383 | the last message start with usage decides the input count |
| Anthropic.OkDependsOnLastAttempt | providers/anthropic/src/lib.rs:338-477 | an Ok reply is that of the first attempt not retried, one of at most seven, and of no other; exactly when it ended cleanly and, after a retry, streamed a block |
| Anthropic.ErrorsSayWhy | providers/anthropic/src/lib.rs:338-477 | an error is that of the first attempt not retried, or, if that ended cleanly with nothing or all seven were retried, of the attempt before |
| Anthropic.EmptyReplyAfterRetry | providers/anthropic/src/lib.rs:471-477 | a clean but empty reply after a retry is reported as the earlier error |
| Anthropic.RetriedAttemptsShowNothing | providers/anthropic/src/lib.rs:364-376 | a retried attempt showed the caller nothing exactly when it streamed no text or thinking delta, so never when deltas follow their starts |
| Registry.CreateCore | executor/src/executor.rs:61-78 | an undisturbed creation ends Running with the handle, or Failed |
| Registry.DoRestart | executor/src/executor.rs:405-433 | an undisturbed restart keeps the configuration and counts one more |
| Registry.DoDestroy | executor/src/executor.rs:389-403 | an undisturbed destruction removes the entry and hands back its handle |
| Registry.RunHealthCheck | executor/src/executor.rs:435-474 | an undisturbed check restarts exactly the unhealthy running runtimes below the limit and fails the others that are unhealthy |
| HealthCheck.AutoRestartsAreBounded | executor/src/executor.rs:435-474 | in every interleaving a handle is held exactly while running, and the health check restarts a runtime at most max_restarts times between creation and removal |
| HealthCheck.UndisturbedCheckRestarts | executor/src/executor.rs:435-474 | when nothing else touches the registry, the interleaved check restarts an unhealthy runtime below the limit and fails it otherwise, as the undisturbed one does |
| HealthCheck.ReachableSound | executor/src/registry.rs:27-127 | the invariant behind it, for a count that may be stale |
| Frames.Stream.WriteFrame | cli/src/daemon/protocol.rs:8-18 | four big-endian length bytes and the payload, or nothing |
| Frames.Stream.ReadFrame | cli/src/daemon/protocol.rs:21-37 | one frame, the end of the stream, or an error |
| Frames.FramesReadBack | cli/src/daemon/protocol.rs:8-37 | reading back frames gives the values written; cut at any byte, exactly those whose frames are whole, then the end if fewer than four bytes are left and an error otherwise |
| Frames.LengthOnTheWire | cli/src/daemon/protocol.rs:8-37 | the length goes out most significant byte first |
| Frames.WholeFrameIsRead | cli/src/daemon/protocol.rs:21-37 | a whole frame is one read, whether its payload decodes or not, and what follows is left |

## Left out

- Wording of nudges, rejections and errors: a parameter; only which call a text answers matters.
- JSON beyond the journal's arrays of strings: string escapes and non-ASCII text make a line unreadable in the model, and the journal writes neither.
- Reading a journal file that exists but cannot be read: the code treats it as empty, and so would the model.
- A persist that fails after its bytes reached the file: a failed journal call changes nothing here; partial lines are covered by `TornLives.TornLivesRecover`, for a process that dies with the append.
- `FileJournal::copy_snapshot`: a no-op in the code; forks are modelled over the in-memory journal.
- What several turns in flight do to the conversation: `Turns` gives the order and the origin of their events; `AgentRecovery` and `SessionCrash` say what one turn's events fold to.
- The loop-free handlers of the session, workflow, supervisor and job actors, of the registry and of the stream assembler are methods proved against the functions that the state machines step by; they have no rows of their own.
- Release-build arithmetic: token sums wrap at 32 bits; restart counts, sequence numbers and iteration counters are unbounded.
- Streaming events other than their order and kind: their payloads do not matter to any fold.
- The other fields of an agent definition, the toolbox filter and the text of prompts: they do not influence the transitions of any state machine.
- Liveness: notifications are best-effort, full channels drop them, the supervisor's wait for shutdown acknowledgements and mailbox back-pressure are not modelled beyond the bound of the session's mailbox.
- Log broadcast, history rendering, timers, backoff sleeps, sockets, sandboxing, process spawning, the control socket's accept loop and the command line: I/O plumbing.
- Composition of the layers: a workflow may receive any reports and a job any notifications, so each layer is proved against every behaviour of its neighbours; there is no single transition system of all of them.
- A workflow definition or provider registry that changes between incarnations: both are fixed for a workflow's history.
- Fresh ids: drawn in increasing order; only that each is new is used.
- AgentRepetition.StuckAndNudgeAreExact: speaks of equal fingerprints, as the code compares no more.
- Pipeline.CrashLeavesACut: needs that no persist failed, because a failed one leaves a gap; `Pipeline.PersistenceFollowsEmission` says what is journaled then. The same holds of `SessionCrash.SessionDies`.

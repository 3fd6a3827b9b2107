# Verified model of the relay's core

This project models the parts of the repository whose behaviour depends on order, interleaving,
aliasing or the boundaries of a format, and proves what they guarantee. Run `dafny verify
dfyconfig.toml` in this directory to check all of it.

## What is modelled

- **The quest scheduler** (`Scheduler`, `LeastFixpoint`, `SchedulerInvariant`, `WorkerInvariant`,
  `SchedulerTheorems`, `SchedulerRun`, `Results`, `QuestRecords`, `FinalStatus`, `ScanOrder`,
  `ParkedRuns`, `ParkedStatus`, `MapOrder`). Map iteration and goroutines are a nondeterministic state machine; one
  step is one critical section. A tool's outcome is fixed per quest and attempt, a repair's per quest
  and attempt. The specification is a least fixed point over the dependency graph; the imperative
  scheduler refines the state machine. Done set and results are the same for every order, and so are
  all statuses, except behind a quest that waits for a human; there the proofs say exactly when. The
  records say with which parameters each tool call runs and what the board tells of it afterwards.
- **Crash recovery** (`Crash`). A run may stop at any step; what was saved may show every quest as it
  stood at another point, because the hook that saves runs outside the store's lock.
- **The mission board** (`Board`, `MissionStore`, `Approval`, `Permissions`, `Observation`). The store is a class
  whose methods are a critical section and the write-through behind it, with what others do to the
  mission in between as a parameter.
- **Planning and references** (`Planner`, `PlannedBoard`, `Paths`, `Interpolation`). String parameters
  are sequences of tokens: plain text, a complete reference with its digits and path, or a stub. What
  a path denotes is said through the values along it.
- **Scanners** (`JsonExtract`, `JsonRoundTrip`, `JpegSplitter`, `JpegChunks`). The two brace matchers
  over byte strings, and the frame splitter fed chunk by chunk.
- **Message deduplication** (`SmsTypes`, `SmsPurge`, `SmsBatches`, `SmsTable`), with the candidate
  slices as arrays compacted in place.
- **The rendezvous directory** (`Directory`, `DirectoryRace`, `DirectorySharing`), as atomic requests
  and as separate statements. Time stamps have whole seconds, as the database stores them.
- **The distress cascade** (`Strings`, `AlertText`, `AlertFormat`, `Cascade`, `CascadeNetwork`): the
  text format down to its characters, one node, and any network of nodes.
- **The phone inference mailbox** (`Mailbox`, `MailboxRuns`) and **the screen viewer hub**
  (`ViewerHub`, `HubRuns`): the shared variables as classes, every interleaving as runs.
- **The log store** (`LogTypes`, `LogStore`) and **the prompt packer** (`PromptPacker`).
- `Selections` says what it means that one list holds exactly the elements of another that meet a
  condition; guardians, frames, log lines, table rows and dependencies are selected in this sense.

## What the proofs found

Where the code does not do what it is meant to, the model keeps the code and a lemma gives the
exact condition under which it does.

- A second crash of a resumed mission is not recovered: the mission is still "interrupted", and a
  claimed quest is never taken on again (`Crash.HarmlessIffReset`).
- A quest whose claim is refused stays pending (`SchedulerTheorems.RunsResolveTheBoard`). After a
  complete run the loop plans again only for such a quest, or one that was under way elsewhere
  (`Observation.ReplansIffSomethingIsStuck`).
- An approval is not remembered: while approval is required, an approved quest asks again
  (`Approval.ApprovedIsAskedAgain`).
- Dropping an invalid planned quest shifts the meaning of later dependency numbers
  (`Planner.DependencyKeepsItsMeaning`); on replan rounds wiring and interpolation disagree
  (`PlannedBoard.WiringIsRightIffFirstPlan`); a reference written `q01` never names a quest
  (`PlannedBoard.ReferencesAreDone`).
- Which quests end cancelled rather than untouched behind a parked one depends on map order
  (`MapOrder.RunsAgreeIff`, with a board of four quests in `MapOrder.CancelledSetDependsOnOrder`), and
  so does a permission with disagreeing wildcards (`Permissions.AnswerIsUniqueIffUnambiguous`).
- A chunk boundary inside a start marker outside a frame loses bytes
  (`JpegChunks.ChunkingIsInvisibleIffNoCut`).
- The purge misses duplicates if a row returns to an old time
  (`SmsPurge.CompleteForAllSendersIffNoReturn`), or if two lie in different batches
  (`SmsBatches.PurgeAllIsCompleteIffTogether`); insertion misses them behind the query's limit of
  40 (`SmsTable.InsertIsCleanIffFewRows`).
- Four counted directory lookups are only 599001 ms apart, not ten minutes
  (`Directory.SpanIsExact`), and two interleaved requests can share a safe
  (`DirectorySharing.SharedIffBothAdmitted`).
- A received alert is never relayed further, because its id is marked twice
  (`CascadeNetwork.CascadeStopsAtTheOrigin`). With one mark, what a node relays depends on which copy
  arrives first (`Cascade.FirstCallDecides`). An alert id that is a lone bar, or an empty message,
  breaks the format (`AlertFormat.RoundTripIffTransmittable`).
- An inference result that comes before the look-up is lost (`MailboxRuns.FoundIffNothingCameFirst`);
  within a second there are only 128 job ids (`MailboxRuns.JobIdsRepeat`).
- New viewers can be sent another bridge's configuration unless a bridge connects with nothing cached
  and no other connection alive (`HubRuns.ConfigStaysTheBridgesIffAlone`).
- The text in front of a JSON object must not contain an opening brace
  (`JsonRoundTrip.RoundTripIffNoBraceBefore`).
- Paging by a requested size over 2000 skips lines (`LogStore.AskingSeesAllIffSmall`). The
  prompt packer counts characters and the server bytes, so some prompts are refused
  (`PromptPacker.PromptIsRefusedIffTooManyBytes`).

## Model

| member | source | states |
|---|---|---|
| LeastFixpoint.LeastIsLeast | vpc-relay/orchestrator.go:708-905 | The target of the scheduler: the set computed by iteration holds the quests already done, is closed under "may run, dependencies in the set, an attempt succeeds", and is contained in every such set. |
| LeastFixpoint.LeastHasReasons | vpc-relay/orchestrator.go:796-829 | Every member of that set was done before or is supported by the set itself. |
| SchedulerInvariant.InitInv | vpc-relay/orchestrator.go:716-730 | Sorting the board into pending, done and failed establishes the invariant. |
| SchedulerInvariant.VisitInv | vpc-relay/orchestrator.go:836-862 | One visit of the level scan, in whatever map order, keeps the invariant: a quest is cancelled only if it can never be done. |
| SchedulerInvariant.EndScanInv | vpc-relay/orchestrator.go:864-899 | Spawning a level, pausing behind a parked quest, or finding nothing runnable keeps the invariant. |
| WorkerInvariant.WorkInv | vpc-relay/orchestrator.go:746-830 | One atomic step of one worker, interleaved anywhere, keeps the invariant. |
| WorkerInvariant.AdvanceIsOwnEffect | vpc-relay/orchestrator.go:746-830 | A worker changes the board entry of its own quest only, and adds at most its own id to the shared sets. |
| WorkerInvariant.StepInv | vpc-relay/orchestrator.go:832-902 | Every step of the scheduler keeps the invariant. |
| WorkerInvariant.RunInv | vpc-relay/orchestrator.go:832-902 | So does every run. |
| SchedulerTheorems.DoneSetIsLeast | vpc-relay/orchestrator.go:708-905 | No run marks more done than the least set, and a run that is not cut off by the context marks exactly it. |
| SchedulerTheorems.Confluence | vpc-relay/orchestrator.go:708-905 | Every map order and every worker interleaving ends with the same done set. |
| SchedulerTheorems.SafeAtEveryStep | vpc-relay/orchestrator.go:746-830 | At every step at most four workers hold a slot; a worker's quest was pending or failed at the start, its dependencies are done on the board, and while its tool runs it is marked running, claimed by the acting karaka and not denied. |
| SchedulerTheorems.RunningMeansInTool | vpc-relay/orchestrator.go:784-812 | A quest shows as running only while some worker is inside its tool call. |
| SchedulerTheorems.DoneIsForever | vpc-relay/moksa/executor.go:11-93 | No step of the scheduler takes a quest out of done or changes the result it was done with. |
| SchedulerTheorems.EveryStepDescends | vpc-relay/orchestrator.go:832-902 | Every step goes down in a well-founded order (pending quests, stage, work left), so every run is finite, through the bounded repair loop too. |
| SchedulerTheorems.NeverStuck | vpc-relay/orchestrator.go:832-902 | A run that has not stopped can always take a step other than the expiry of the context. |
| SchedulerTheorems.ClosedMissionDoesNothing | vpc-relay/moksa/executor.go:11-31 | On a mission that refuses claims nothing new is ever done. |
| SchedulerTheorems.RunsResolveTheBoard | vpc-relay/orchestrator.go:784-790 | With approval off and nothing waiting, a completed run leaves a quest it took on done, failed or cancelled if and only if its claim was not refused; a refused claim leaves it pending. |
| SchedulerRun.CheckDependencies | vpc-relay/orchestrator.go:840-853 | The dependency loop finds a failed dependency, a missing one, or none, in list order. |
| SchedulerRun.Partition | vpc-relay/orchestrator.go:716-730 | The three working sets are those the state machine starts from. |
| SchedulerRun.CollectLevel | vpc-relay/orchestrator.go:836-862 | The scan over the pending map, in any order, is a run of the state machine. |
| SchedulerRun.RunLevel | vpc-relay/orchestrator.go:887-901 | Running a level with workers interleaved in any order is a run of the state machine, and ends. |
| SchedulerRun.CancelRest | vpc-relay/orchestrator.go:881-885 | Cancelling a cycle is a run of the state machine. |
| SchedulerRun.ExecuteQuestLevels | vpc-relay/orchestrator.go:708-905 | The whole imperative scheduler ends in a state some run reaches; unless the context expired its done set is the least set, and with approval off on an open mission every quest taken on is settled. The board then tells, of each quest, the parameters and result of one and the same attempt, the reward, or why it was not done. |
| FinalStatus.StatusesAreSpecified | vpc-relay/orchestrator.go:708-905 | Where nothing ends up waiting for a human, every run that is not cut off leaves every quest with the status the specification fixes; approval off and nothing parked is such a case. |
| FinalStatus.SpecifiedMeans | vpc-relay/orchestrator.go:746-830 | That status is done exactly inside the least set, cancelled exactly if denied or some dependency is outside it, failed exactly if ready, let through and claimed but without a successful attempt, and pending exactly if its claim is refused. |
| FinalStatus.EndsAsSpecified | vpc-relay/orchestrator.go:870-879 | On any board a quest ends with the specified status or, if a human is waited for and its dependencies cannot all be done, untouched. |
| FinalStatus.StatusConfluence | vpc-relay/orchestrator.go:708-905 | So where nothing waits, all map orders and interleavings agree on the status of every quest. |
| ParkedRuns.RunsReachBound | vpc-relay/orchestrator.go:836-862 | Along every run the set of quests bound to fail, computed level by level as if every scan spared what it could, never shrinks, and all of it has failed at the end. |
| ParkedStatus.DoomedIsLeast | vpc-relay/orchestrator.go:840-858 | The doomed quests are the least set that holds the first failures and every quest whose first dependency outside the least set is doomed. |
| MapOrder.FailuresAreBetween | vpc-relay/orchestrator.go:854-879 | Where something waits, what has failed at the end of a run lies between the quests that fail anyway and the doomed ones. |
| MapOrder.BothExtremes | vpc-relay/orchestrator.go:836-862 | Both bounds are reached: one run fails only the former, one all of the latter. |
| MapOrder.RunsAgreeIff | vpc-relay/orchestrator.go:836-879 | All runs that are not cut off agree on the status of every quest if and only if nothing ends up waiting, or the quests that fail anyway are all the doomed ones. |
| MapOrder.CancelledSetDependsOnOrder | vpc-relay/orchestrator.go:854-879 | A board of four quests on which they do not agree: behind a parked quest the dependent of a dependent of a cancelled one ends cancelled or untouched. |
| Results.DoneWithFirstSuccess | vpc-relay/orchestrator.go:796-812 | A quest brought to done carries what its first successful attempt yielded, counting the repairs in between. |
| Results.ResultsAgree | vpc-relay/orchestrator.go:708-905 | What is done in some run has the same result in every complete run, whatever the order. |
| Results.ReplacedValuesAreFinal | vpc-relay/orchestrator.go:640-706 | What a reference stands for at some point of a run it stands for on the final board of every complete run. |
| Interpolation.InterpolateParams | vpc-relay/orchestrator.go:640-706 | The loops over results, parameters, references and field paths replace a reference exactly if its path denotes something in a done quest's result, and by that; every other token and parameter stays as it is. |
| Interpolation.ReplaceOne | vpc-relay/orchestrator.go:661-703 | One reference becomes v if and only if objects lead from the result along the path to v; otherwise it stays. |
| Paths.WalkFollows | vpc-relay/orchestrator.go:687-703 | The walk finds v exactly if there are values along the path, each but the last an object whose named field, or null for a missing one, is the next, and the last is v. |
| Paths.InterpolateReplaces | vpc-relay/orchestrator.go:640-706 | Interpolating against a board does this to every token of every parameter. |
| Paths.NestedLeafComesBack | vpc-relay/orchestrator.go:661-703 | A round trip: a leaf wrapped in nested objects along any path, as a done quest's result, comes back as exactly that leaf through a reference with that path. |
| QuestRecords.ToolGetsItsParams | vpc-relay/orchestrator.go:764-829 | At every reached state a tool call finds on the board: for the first attempt the quest's own parameters, each reference to a dependency replaced exactly if it stands for something in that quest's result; for a later one what the repair before it proposed. |
| QuestRecords.SameParamsInEveryRun | vpc-relay/moksa/executor.go:69-74 | If a quest refers to its dependencies only, each of its attempts gets the same parameters in every run, whatever the order. |
| QuestRecords.BoardTellsWhatHappened | vpc-relay/orchestrator.go:796-829 | At every reached state a done quest has result and parameters of one and the same attempt, the automatic reward and no error; a failed one the failing reward, the tool's error and no result if it has a tool; one whose claim was refused only its parameters and a cleared error; a waiting one nothing new; a cancelled one its true reason: the denial exactly if its dependencies can all be done, else a dependency that has failed, or a cycle, once nothing is left to run. A quest the run had no business with is untouched. |
| Crash.CrashIsHarmless | vpc-relay/mission_store.go:87-108 | For a mission in a status recovery resets, recovering what was saved and running again aims at the same done set, even if every quest was saved at another point of another run. |
| Crash.BoardIsView | vpc-relay/moksa/store.go:76-86 | The board of any state a run reaches is such a saved view. |
| Crash.CrashTransparency | vpc-relay/mission_store.go:87-108 | Stop a run anywhere, recover whatever old or mixed view was saved, run to the end: the done set is that of an uninterrupted run, and no quest saved as done is worked on again. |
| Crash.ResumesFromRecovered | vpc-relay/mission_store.go:87-108 | The board the second run starts from is the recovered mission's, with nothing left running or claimed by nobody at work. |
| Crash.HarmlessIffReset | vpc-relay/mission_store.go:88-92 | Recovery from every saved view is harmless if and only if the mission is planning, active or synthesizing when the run starts, or the run had nothing to do; a resumed mission stays "interrupted", so a second crash can lose a claimed quest. |
| Planner.Validate | vpc-relay/orchestrator.go:254-279 | Kept are the first `maxQuests` quests with a title and a known tool, with their in-range dependencies and with the numbers those had in the plan. |
| Planner.KeptAreKept | vpc-relay/orchestrator.go:257-279 | The kept positions are exactly the ones worth keeping, in order. |
| Planner.CleaningMeans | vpc-relay/orchestrator.go:268-274 | A kept quest keeps exactly its dependencies between 1 and the plan's length, in order, and everything else. |
| Planner.DependencyKeepsItsMeaning | vpc-relay/orchestrator.go:268-278 | After validation dependency d still means the plan's d-th quest if and only if none of the first d quests was dropped. |
| Planner.AutoWireDeps | vpc-relay/orchestrator.go:172-199 | In place, for every quest: dependencies are the old ones, in their order, plus exactly the in-range quests other than itself that its parameters mention. |
| Planner.WireOne | vpc-relay/orchestrator.go:174-197 | The same for one quest, whatever the order of its parameters. |
| PlannedBoard.Populate | vpc-relay/orchestrator.go:330-362 | The two loops put the plan behind the quests already on the board and translate plan positions into quest ids. |
| PlannedBoard.PlantingMeans | vpc-relay/orchestrator.go:330-362 | The i-th planned quest is the i-th behind those already there, pending and unclaimed, with the ids of its in-range dependencies in order; the mission is active. |
| PlannedBoard.ReferencesAreDone | vpc-relay/orchestrator.go:640-706 | On a board that starts empty, whenever a worker is about to interpolate, every in-range reference to another quest of the plan names a done quest; the reference's own spelling names it if and only if the number has no leading zero. |
| PlannedBoard.WiringIsRightIffFirstPlan | vpc-relay/orchestrator.go:343-348 | Wiring by plan position and interpolation by board id agree for every plan if and only if the board was empty, so not on replan rounds. |
| Results.ReferencesAreReplaced | vpc-relay/orchestrator.go:640-706 | Such a reference becomes exactly what its path denotes in what the named quest's first successful attempt yielded, and stays as it is only if the path denotes nothing there. |
| Observation.Observe | vpc-relay/orchestrator.go:375-412 | The orchestrator pauses exactly if a quest waits, and asks the planner again exactly if nobody waits, some quest is done, some is neither done nor closed, and it is not the third iteration; otherwise it goes on to the report. |
| Observation.ReplansIffSomethingIsStuck | vpc-relay/orchestrator.go:403-412 | After a complete run with approval off and nothing parked it asks the planner again if and only if it is not the last iteration, the least set is not empty, and some claim was refused or some quest was under way elsewhere. |
| Board.OnQuestKeyed | vpc-relay/moksa/store.go:65-87 | Updating one quest through the store changes exactly one entry of the board, and fails exactly for an unknown id or a refused change. |
| Board.RecoverCommutesWithKeyed | vpc-relay/mission_store.go:88-104 | Recovering the list of quests is recovering each board entry. |
| Board.NumberOfDigits | vpc-relay/moksa/mission.go:65-77 | Reading a formatted number gives the number back. |
| Board.QuestIdInjective | vpc-relay/moksa/mission.go:61-63 | Quest ids are equal only for equal numbers. |
| Board.AddingKeepsNumbering | vpc-relay/moksa/executor.go:139-165 | Adding a quest keeps the ids exactly q1, q2, ... and the new id was not on the board. |
| Board.RewardingKeepsNumbering | vpc-relay/moksa/executor.go:95-137 | So does a reward, with or without a follow-up quest. |
| MissionStore.Store.UpdateMission | vpc-relay/moksa/store.go:65-87 | A change is applied under the lock and an error changes nothing; the row then written shows the mission as the hook found it after the lock, so with others at work memory may be ahead of it, and without it is the same. |
| MissionStore.Store.SaveMission | vpc-relay/moksa/store.go:27-36 | Memory holds the mission and what others made of it since, the table what the hook read; they agree if nobody changes it after the hook has read it. |
| MissionStore.Store.DeleteMission | vpc-relay/moksa/store.go:103-116 | The row is deleted after the lock: memory and table agree afterwards if and only if the mission was unknown or was not saved again in between; the answer says whether it was there. |
| MissionStore.Store.ClaimQuest | vpc-relay/moksa/executor.go:11-31 | A claim succeeds exactly on an open mission for a pending or claimed quest and a named karaka; it sets claim and status of that quest, changes no other, and is written through. |
| MissionStore.Store.RunQuest | vpc-relay/moksa/executor.go:33-93 | Two updates around the tool, with what others do to the mission in between and after each: memory and table for a refused start, a quest that is gone afterwards, and a completed run. |
| MissionStore.RunRecordsItsOwnOutcome | vpc-relay/moksa/executor.go:69-92 | Whatever others do meanwhile, a completed run leaves the quest done or failed with what its tool made of the parameters it was started with, and it was started from claimed or failed, with a tool, a claim and no deny. |
| MissionStore.FinishMeans | vpc-relay/moksa/executor.go:76-92 | Recording an outcome changes the one quest: done with the result and no error, or failed with the error and the failing reward. |
| MissionStore.Store.ApplyReward | vpc-relay/moksa/executor.go:95-137 | Exactly for a known quest and a valid verdict: the reward is recorded, the status is the one the verdict implies, and a "needs more" verdict puts a pending follow-up with the same tool, depending on the quest, behind the others. |
| MissionStore.Store.AddQuest | vpc-relay/moksa/executor.go:139-165 | The new quest at the end, pending, with the next id and the given fields, unless the mission is cancelled or the title empty; ids stay unique. |
| MissionStore.Store.Approve | vpc-relay/moksa/handlers.go:177-200 | Exactly a waiting quest can be decided. Approved: it is pending, nothing else in it changes, a waiting mission is active. Rejected: it is cancelled with the reason and the mission status stays. No other quest changes. |
| MissionStore.DecisionMeans | vpc-relay/moksa/handlers.go:177-200 | The same about the decision on the mission alone. |
| Approval.RejectedIsNeverRun | vpc-relay/moksa/handlers.go:191-197 | In every run of every world after a rejection the quest stays cancelled as it is, no worker ever holds it, and nothing that depends on it is taken on or done. |
| Approval.ApprovedCanBeDone | vpc-relay/moksa/handlers.go:185-190 | After an approval the next run takes the quest on, and it is in the least set exactly if its dependencies are, it may be claimed, is not denied, does not ask again, and one of its attempts succeeds. |
| Approval.ApprovedIsAskedAgain | vpc-relay/orchestrator.go:746-757 | The approval is not remembered: as long as approval is required for its tool, the approved quest ends up waiting again. |
| MissionStore.Store.LoadMissionsFromDB | vpc-relay/mission_store.go:66-110 | After boot memory holds every saved mission, recovered, and the table holds the same. |
| MissionStore.RecoverRow | vpc-relay/mission_store.go:87-107 | A mission that was mid-run gets its running and claimed quests back to pending and is parked as interrupted; any other is loaded unchanged. |
| MissionStore.ResetMidFlight | vpc-relay/mission_store.go:94-99 | The loop over a mission's quests resets exactly the claimed and running ones. |
| MissionStore.FindQuest | vpc-relay/moksa/mission.go:52-59 | The first quest with the id, or none. |
| MissionStore.Itoa | vpc-relay/moksa/mission.go:65-77 | The digits written backwards into a 16-byte buffer are the decimal digits of the number. |
| MissionStore.OnlyAFailedVerdictUndoesDone | vpc-relay/moksa/executor.go:95-137 | A done quest cannot be claimed, run, decided on or reset by recovery, and of the rewards exactly the "failed" verdict takes it out of done. |
| Permissions.CheckPermission | vpc-relay/karaka/registry.go:129-152 | The lookup returns one of the possible answers: the exact entry, else some matching wildcard, else the category, else deny. |
| Permissions.AnswersAreBest | vpc-relay/karaka/registry.go:129-152 | The possible answers are exactly the best entries: the exact one, without it those whose text before the star begins the tool's name, without those the category's, else deny. |
| Permissions.NothingIsAllowedByDefault | vpc-relay/karaka/registry.go:129-152 | Whatever is not denied has an entry of the karaka's own that says so. |
| Permissions.AnswerIsUniqueIffUnambiguous | vpc-relay/karaka/registry.go:138-142 | The answer is independent of the map order if and only if an exact entry exists or all matching wildcards say the same. |
| Permissions.SetPermissions | vpc-relay/karaka/registry.go:110-124 | Entries are merged into a known karaka's table; an unknown karaka is ignored. |
| Permissions.ExactEntryDecides | vpc-relay/karaka/registry.go:110-137 | Setting an exact entry makes it the only possible answer. |
| JsonExtract.ExtractJson | vpc-relay/orchestrator.go:202-235 | The loop over depth, string and escape flags returns the specified extraction. |
| JsonExtract.ExtractJsonObject | vpc-relay/suparna/engine.go:146-181 | The twin, with its flags tested in another order, returns the same extraction on every input. |
| JsonExtract.ExtractionIsFirstBalanced | vpc-relay/orchestrator.go:202-235 | The result starts at the first opening brace, ends with a brace, is balanced, and no shorter beginning is; it is empty only if the text from the first brace on never closes. |
| JsonRoundTrip.ExtractPrinted | vpc-relay/orchestrator.go:202-235 | For every JSON object tree with any whitespace (sections 4 to 7 of RFC 8259), every prefix without an opening brace and every suffix, extraction returns exactly the printed object. |
| JsonRoundTrip.RoundTripIffNoBraceBefore | vpc-relay/orchestrator.go:202-235 | Printing and extracting is the identity for every object and every suffix if and only if the prefix has no opening brace. |
| JsonRoundTrip.PrefixMatters | vpc-relay/orchestrator.go:202-235 | Behind any prefix with an opening brace, and before any suffix, some object is lost. |
| JpegSplitter.ExtractJpegs | vpc-relay/stream.py:46-59 | The loop returns the specified split. |
| JpegSplitter.ExtractGivesFrames | vpc-relay/stream.py:46-59 | Every frame runs from a start marker to the first end marker after it (section B.1.1.3 of ITU-T T.81); the rest is an unfinished frame or nothing. |
| JpegSplitter.HandleStream | vpc-relay/stream.py:407-418 | The read loop sends, over all chunks, exactly the frames of at least 100 bytes, in order, and carries the leftover. |
| JpegSplitter.SentAreTheLongOnes | vpc-relay/stream.py:413-416 | What is sent is exactly every frame of at least 100 bytes, once, in order. |
| JpegChunks.ExtractIsEatAll | vpc-relay/stream.py:46-59 | The search-based splitter computes what a byte-at-a-time machine computes. |
| JpegChunks.ChunkingIsInvisibleIffNoCut | vpc-relay/stream.py:51-52 | Frames and leftover over any chunking equal those of one call on the whole stream if and only if no boundary cuts a start marker in two outside a frame; every such cut loses bytes. |
| SmsTypes.LastDigits | vpc-relay/orchestrator.go:1060-1071 | The last nine digits of a number, or all of them. |
| SmsTypes.CanonicalMeans | vpc-relay/orchestrator.go:1060-1071 | Its digits are selected in order, and of these the last nine are taken, or all. |
| SmsTypes.Match | vpc-relay/orchestrator.go:1059-1074 | Two numbers match if both have digits and the same last nine. |
| SmsTypes.MatchingIsPartialEquivalence | vpc-relay/orchestrator.go:1059-1074 | Matching is symmetric and transitive, and a sender matches itself exactly if it has a digit. |
| SmsPurge.CompactInPlace | vpc-relay/sms_dedup.go:120-125 | Filtering into the same backing array leaves the recent candidates in front and the stale tail behind them. |
| SmsPurge.PurgeBatch | vpc-relay/sms_dedup.go:114-138 | The aliased, in-place purge deletes exactly the rows the specification deletes. |
| SmsPurge.PurgeIsSound | vpc-relay/sms_dedup.go:114-138 | In any time order, every row is kept or deleted once, and every deleted row has a surviving row of lower id, same body, matching phone and a gap within the window. |
| SmsPurge.PurgeIsComplete | vpc-relay/sms_dedup.go:114-138 | If no row returns to within one window of a row after another lay two windows away, survivors are pairwise not near-duplicates. |
| SmsPurge.TimeOrderNeverReturns | vpc-relay/sms_dedup.go:114-138 | Rows in time order have that property. |
| SmsPurge.CompleteForAllSendersIffNoReturn | vpc-relay/sms_dedup.go:121-125 | Purging is complete whoever the senders are if and only if no row returns. |
| SmsTable.DuplicateIdIsNear | vpc-relay/sms_dedup.go:30-55 | An id reported as duplicate belongs to a stored row with the same body, a matching phone and a gap within the window. |
| SmsTable.InsertKeepsNoNear | vpc-relay/sms_dedup.go:30-83 | Inserting keeps the table free of near-duplicates if at most 40 rows of the body lie in the window. |
| SmsTable.InsertIsCleanIffFewRows | vpc-relay/sms_dedup.go:38 | It does so whoever the senders are if and only if at most 40 rows of the body lie in the window. |
| SmsTable.Table.Query | vpc-relay/sms_dedup.go:30-55 | The first matching row of the first forty in the window. |
| SmsTable.QueryMeans | vpc-relay/sms_dedup.go:30-55 | The answer is the id of the first of those rows whose sender matches, and none if there is no such row, no text or no time. |
| SmsTable.Table.InsertDeduped | vpc-relay/sms_dedup.go:59-83 | The table after the insertion, the id and whether it was inserted; a clean table with few rows in the window stays clean. |
| SmsTable.Table.Purge | vpc-relay/sms_dedup.go:88-145 | The loop over batches of 5000 leaves what purging each batch by itself leaves; nothing is added, and every deleted row leaves an earlier near-duplicate in the table. |
| SmsBatches.PurgeAllIsSound | vpc-relay/sms_dedup.go:88-145 | Over all batches, what is gone has an earlier near-duplicate among what is left. |
| SmsBatches.PurgeAllIsCompleteIffTogether | vpc-relay/sms_dedup.go:92-138 | The purge leaves no near-duplicates, whoever the senders are, if and only if rows of one body within a window of each other are in one batch and no row of the body between them lies two windows away. |
| Directory.Server.Get | frontend/src/routes/api/directory/+server.ts:54-187 | The request, statement by statement, is one step of the specified server: refuse, lock down, answer a fake, or release the newest matching safe; the contract also gives outcome and effect in these terms. |
| Directory.OutcomeOfServe | frontend/src/routes/api/directory/+server.ts:83-187 | Refused exactly if the address has used up its three attempts within ten minutes; the newest unconsumed safe is deleted exactly if twenty attempts on the phone are recent, else handed out and consumed; a fake exactly if there is none. |
| Directory.GlobalIsRecent | frontend/src/routes/api/directory/+server.ts:114-119 | The phone's total counts every attempt of every address whose counter was touched within a day. |
| Directory.Server.Deposit | frontend/src/routes/api/directory/+server.ts:5-51 | A deposited safe gets an id no stored safe has, whatever was deposited and handed out before. |
| Directory.CounterCountsSinceRestart | frontend/src/routes/api/directory/+server.ts:85-148 | Over every run the counter of an address and phone is the number of its counted lookups since it was last started afresh. |
| Directory.CounterInvariant | frontend/src/routes/api/directory/+server.ts:85-148 | Over every run with a monotone clock the counter is at most 3 and at most the number of counted lookups, and the lookup before those it counts lies at least 599001 ms before the first of them and before now. |
| Directory.RateLimitHolds | frontend/src/routes/api/directory/+server.ts:85-148 | Over every run with a monotone clock the stored counter never exceeds 3, and any four counted lookups of one address and phone span at least 599001 ms. |
| Directory.SpanIsExact | frontend/src/routes/api/directory/+server.ts:96-108 | That bound holds for every run exactly up to 599001 ms: time stamps have whole seconds, so ten full minutes are not guaranteed. |
| Directory.ReleasedOnce | frontend/src/routes/api/directory/+server.ts:110-113 | Over every run of deposits and lookups each real safe is handed out at most once. |
| DirectoryRace.StatementsAreServe | frontend/src/routes/api/directory/+server.ts:83-187 | The request's separate database statements, uninterrupted, are the atomic request. |
| DirectorySharing.SharedIffBothAdmitted | frontend/src/routes/api/directory/+server.ts:83-187 | Two requests have an interleaving in which both are handed one safe if and only if they ask for the same phone and time, there is a safe for it, and, stale counters cleared, neither is refused and the phone is not locked down for either. |
| DirectorySharing.OnlyIfCanShare | frontend/src/routes/api/directory/+server.ts:83-187 | No schedule of their statements hands both the same safe unless that condition holds. |
| DirectorySharing.RunsLeaveStampsPast | frontend/src/routes/api/directory/+server.ts:85-148 | The assumption of both, that no stored time stamp lies in the future, holds after every run with a monotone clock. |
| DirectorySharing.InterleavedRequestsShareASafe | frontend/src/routes/api/directory/+server.ts:176-186 | The condition is met with one safe, no counters and two addresses. |
| AlertText.AtoiItoa | vpc-relay/emergency_911.go:80-110 | Parsing a formatted number gives it back, and it is a word without bars. |
| AlertFormat.SanitizeIsClean | vpc-relay/emergency_911.go:69-75 | A sanitised text has no bar, no line break and no white space at its ends. |
| AlertFormat.SanitizeKeepsTheText | vpc-relay/emergency_911.go:69-75 | Nothing else is lost: but for white space at the ends every character stands where it stood, a line break as a blank and a bar as a slash. |
| AlertFormat.SanitizeTwice | vpc-relay/emergency_911.go:69-75 | Sanitising twice is sanitising once. |
| AlertFormat.ParseBuild | vpc-relay/emergency_911.go:80-110 | Parsing a built body gives back id, hop and the sanitised phone, name and message. |
| AlertFormat.RoundTripIffTransmittable | vpc-relay/emergency_911.go:80-110 | It does so if and only if the id is one word and not a lone bar, the sanitised phone is one word, the hop is at least 1 and the sanitised message is not empty. |
| AlertFormat.HeaderSurvives | vpc-relay/emergency_911.go:80-110 | Whatever the texts, a built body is understood if and only if the sanitised phone is one word, and then with its id and hop. |
| AlertFormat.EmptyMessageBreaks | vpc-relay/emergency_911.go:80-110 | Without a message the name comes back with a bar appended. |
| AlertFormat.BarIdBreaks | vpc-relay/emergency_911.go:80-110 | An id that is a lone bar is not understood. |
| AlertFormat.RelayChangesOnlyTheHop | vpc-relay/emergency_911.go:186-197 | Rebuilding a received alert with the next hop changes the hop and nothing else. |
| Cascade.Phone.MarkSeen | vpc-relay/emergency_911.go:56-67 | The first mark of an id succeeds, later ones do not; an empty id is never recorded. |
| Cascade.Phone.TriggerCascade | vpc-relay/emergency_911.go:145-180 | For a new id and a hop of at most 3 exactly the guardians that do not match the sender get the alert, in order and as often as listed, and the answer is their number; otherwise nothing is sent. |
| Cascade.Phone.RelayAlert | vpc-relay/emergency_911.go:184-198 | The received alert is marked; the outbox does not change, because the trigger finds the id marked. |
| Cascade.FirstCallDecides | vpc-relay/emergency_911.go:145-198 | Whatever calls a node gets, what it sends about an alert is its answer to the first call about it, and nothing after that. |
| Cascade.FirstCallTellsAll | vpc-relay/emergency_911.go:145-198 | On the first call about an alert a node tells every guardian but the sender: at the origin, and with the id marked once also where it arrives at hop 1 or 2. |
| CascadeNetwork.EveryGuardianIsTold | vpc-relay/emergency_911.go:167-177 | So it is in any network, whatever else is delivered: what such a node has sent about the alert is exactly one message to each of these guardians, in order. |
| CascadeNetwork.NodeSendsAtMostOnce | vpc-relay/emergency_911.go:145-198 | In any network and any delivery order a node sends about one alert at most one batch, no larger than its relay list, with hops from 1 to 3. |
| CascadeNetwork.CascadeIsBounded | vpc-relay/emergency_911.go:145-198 | With late, lost, repeated, reordered or forged messages, the messages about one alert are at most the sum of the relay out-degrees. |
| CascadeNetwork.CascadeStopsAtTheOrigin | vpc-relay/emergency_911.go:184-198 | As the code marks twice, only the node where an alert was triggered ever sends anything about it. |
| CascadeNetwork.HopsCountLinks | vpc-relay/emergency_911.go:184-198 | With the id marked once and no forged messages, a hop number is the length of a chain of guardians from the origin, so nothing is sent from more than two links away. |
| Mailbox.Runtime.Wake | vpc-relay/edge/runtime.go:95-104 | The pending command becomes a wake with the request; waiters are untouched. |
| Mailbox.Runtime.Stop | vpc-relay/edge/runtime.go:106-112 | The pending command becomes a stop; an earlier job is no longer pending. |
| Mailbox.Runtime.Infer | vpc-relay/edge/runtime.go:114-125 | The job becomes pending and gets an empty channel under its id. |
| Mailbox.Runtime.UpdateReport | vpc-relay/edge/runtime.go:148-178 | A reported outcome goes into the registered channel and the job is unregistered; any other report changes no channel. |
| Mailbox.Runtime.TakeSyncResponse | vpc-relay/edge/runtime.go:180-203 | The phone gets the pending command with its own fields only, and nothing is pending afterwards. |
| MailboxRuns.RunInv | vpc-relay/edge/runtime.go:114-203 | Every interleaving keeps the invariant tying waiters, channels, waits and the history together. |
| MailboxRuns.SendNeverBlocks | vpc-relay/edge/runtime.go:167-177 | A job still registered has an empty channel, so the send under the lock never blocks. |
| MailboxRuns.WaitGetsItsOwnOutcome | vpc-relay/edge/runtime.go:127-146 | An answered wait has the outcome of its own job, reported after the wait looked the job up. |
| MailboxRuns.ReportedIsReceived | vpc-relay/edge/runtime.go:127-178 | An outcome reported for a job a wait has looked up is still there, whatever happens in between, when the wait takes it, and is then its answer. |
| MailboxRuns.OneAnswerPerJob | vpc-relay/edge/runtime.go:127-146 | If job ids do not repeat, at most one wait for a job is answered. |
| MailboxRuns.FoundIffNothingCameFirst | vpc-relay/edge/runtime.go:127-133 | A wait finds its channel if and only if its job was queued and since then neither reported nor given up, so an outcome reported before the look-up is lost. |
| MailboxRuns.PhoneGetsTheLastCommand | vpc-relay/edge/runtime.go:180-203 | The phone gets the command queued last since it last took one, whole, and nothing of an earlier one. |
| MailboxRuns.HandedAtMostOncePerQueueing | vpc-relay/edge/runtime.go:114-125 | A job is handed to the phone at most as often as it was queued. |
| MailboxRuns.JobIdsRepeat | vpc-relay/edge/runtime.go:246-259 | The digits of two job ids are equal if and only if the clocks agree in their lowest seven bits. |
| MailboxRuns.ExactlyAHundredAndTwentyEight | vpc-relay/edge/runtime.go:246-259 | So within a second there are exactly 128 ids. |
| ViewerHub.Hub.CacheConfig | vpc-relay/scrcpy_hub.go:184-190 | The first video message is cached with its connection, later ones are not. |
| ViewerHub.Hub.Broadcast | vpc-relay/scrcpy_hub.go:219-230 | Walking the viewers in any order: a viewer with fewer than 100 waiting messages has exactly the message more at the end of its buffer, a full one and any channel that is no viewer's is unchanged. |
| ViewerHub.Hub.Join | vpc-relay/scrcpy_hub.go:275-285 | One new viewer with an open channel, which holds the cached configuration if there is one and nothing else; all others are unchanged. |
| HubRuns.LeftViewersGetNothing | vpc-relay/scrcpy_hub.go:288-293 | A viewer that has left, or whose channel was closed, gets nothing more, whatever happens later. |
| ViewerHub.Hub.Teardown | vpc-relay/scrcpy_hub.go:141-162 | The end of the current bridge closes every viewer's channel once and forgets all; the end of a replaced bridge changes nothing. |
| HubRuns.NothingEverBreaks | vpc-relay/scrcpy_hub.go:141-293 | In every interleaving of bridges, heartbeats and viewers no message is sent on a closed channel, no channel is closed twice, and the first send to a viewer never blocks. |
| HubRuns.OrderDoesNotMatter | vpc-relay/scrcpy_hub.go:223-229 | In whatever order the viewers are served, a broadcast offers each the message once and the others nothing, as the loop does. |
| HubRuns.FramesArriveInOrder | vpc-relay/scrcpy_hub.go:219-230 | What a viewer reads of a thread's broadcasts is an order-preserving subsequence of those begun after it joined. |
| HubRuns.ViewersGetWhatFits | vpc-relay/scrcpy_hub.go:219-230 | Over every run a viewer has got the configuration it joined with and then exactly the messages that found fewer than 100 waiting when it was served. |
| HubRuns.OnlyFullChannelsDrop | vpc-relay/scrcpy_hub.go:219-230 | Of a thread's broadcasts a viewer has got exactly those that found room; if all did, a watching viewer has got every one begun since it joined, but for one it is just being served. |
| HubRuns.ConfigStaysTheBridgesIffAlone | vpc-relay/scrcpy_hub.go:102-190 | From a connection until the next one viewers are sent no other bridge's configuration, whatever happens, if and only if nothing was cached and no earlier connection was still being handled when it connected. |
| HubRuns.ConfigIsTheBridges | vpc-relay/scrcpy_hub.go:184-190 | Without a forced takeover in the whole run, what is cached comes from the bridge that is streaming. |
| HubRuns.TakeoverKeepsTheOldConfig | vpc-relay/scrcpy_hub.go:143-147 | A bridge that takes over while a configuration is cached leaves the old one cached until it is torn down or taken over in turn. |
| LogStore.Logs.constructor | vpc-relay/logs.go:62-106 | After the start the index agrees with the files if and only if it was empty (then it is rebuilt) or agreed before. |
| LogStore.Logs.Append | vpc-relay/logs.go:123-196 | Index and files agree afterwards; every entry is at the end of its day's file in batch order, and exactly the oldest days are erased that must be. |
| LogStore.Logs.AppendToDay | vpc-relay/logs.go:153-192 | The row grows by the bytes and lines written, or is created with them. |
| LogStore.Logs.EnforceQuota | vpc-relay/logs.go:198-233 | The total is within the quota, and what is left is the longest run of most recent days that fits. |
| LogStore.Logs.DeleteDay | vpc-relay/logs.go:426-435 | File and row of the day are gone, the others unchanged. |
| LogStore.Logs.DeleteAll | vpc-relay/logs.go:437-446 | All files and rows are gone. |
| LogStore.Logs.ReadDay | vpc-relay/logs.go:258-302 | The k-th line of the page is the k-th before the offset from the end of the day, the page is as long as asked or as there are lines, and the count is the day's. |
| LogStore.Reverse | vpc-relay/logs.go:289-292 | Swapping ends in place reverses the array. |
| LogTypes.AppendingBatches | vpc-relay/logs.go:131-192 | Two batches one after the other leave the same files as one large batch. |
| LogTypes.AppendedIsBehind | vpc-relay/logs.go:131-192 | After a batch every day's file is what it was, followed by the lines of exactly that day's entries, in batch order. |
| LogTypes.BytesAreOfText | vpc-relay/logs.go:166-173 | The size in the index is the length of the file's text, line breaks included. |
| LogTypes.EvictionIsDetermined | vpc-relay/logs.go:198-233 | Only one outcome of eviction is allowed by the specification. |
| LogTypes.NothingIsErasedWithinQuota | vpc-relay/logs.go:199-203 | Within the quota nothing is erased. |
| LogTypes.OneLessIsTooLittle | vpc-relay/logs.go:223-232 | With the youngest erased day back, the total would be over the quota. |
| LogStore.PagesConcatenate | vpc-relay/logs.go:294-302 | Consecutive pages of any sizes are one large page. |
| LogStore.AllPagesAreTheReversedDay | vpc-relay/logs.go:287-302 | Pages that cover the day concatenate to the reversed day. |
| LogStore.AskingSeesAllIffSmall | vpc-relay/logs.go:391-403 | A caller who advances by the size it asked for sees the whole day if and only if it asks for at most 2000 or the day has at most 2000 lines. |
| PromptPacker.BuildTodayLogsPrompt | frontend/src/lib/suparna/edgeLogsPrompt.ts:53-109 | The code with its running length computes the specified packing. |
| PromptPacker.Pick | frontend/src/lib/suparna/edgeLogsPrompt.ts:75-84 | The greedy loop's running length is the joined length of the picked lines. |
| PromptPacker.JoinedLength | frontend/src/lib/suparna/edgeLogsPrompt.ts:99-100 | The joined text is as long as the lines plus the line breaks between them. |
| PromptPacker.SortingKeepsUsed | frontend/src/lib/suparna/edgeLogsPrompt.ts:98 | Sorting the picked lines again does not change their joined length. |
| PromptPacker.PromptIsWhole | frontend/src/lib/suparna/edgeLogsPrompt.ts:98-109 | The prompt is the header and whole lines of distinct entries, newest first, at most 28 of them and at most 2000 characters: the final slice never cuts. |
| PromptPacker.GreedyIsMaximal | frontend/src/lib/suparna/edgeLogsPrompt.ts:77-84 | A candidate left out, with lines to spare, would not have fitted in at the end either. |
| PromptPacker.CandidatesAreRanked | frontend/src/lib/suparna/edgeLogsPrompt.ts:73 | Candidates are tried by score, then newest, then given order, and are exactly the pool. |
| PromptPacker.RelevantIff | frontend/src/lib/suparna/edgeLogsPrompt.ts:19-30 | An entry scores above zero exactly if it is no noise and is an error, a warning or an information, or speaks of the phone's own work. |
| PromptPacker.OwnWorkComesFirst | frontend/src/lib/suparna/edgeLogsPrompt.ts:19-30 | Whatever the levels, an entry about the phone's own work is tried before one that is not. |
| PromptPacker.MentionsInAnyCase | frontend/src/lib/suparna/edgeLogsPrompt.ts:19-27 | A text speaks of a word exactly if the word stands somewhere in it, in capitals or not. |
| PromptPacker.LineTells | frontend/src/lib/suparna/edgeLogsPrompt.ts:32-36 | A line is the time of day, the tag and the message, whole up to 100 characters, else its first 97 and an ellipsis. |
| PromptPacker.NoiseOnlyIfNothingElse | frontend/src/lib/suparna/edgeLogsPrompt.ts:64-71 | Noise is in the pool only if there is nothing else. |
| PromptPacker.NoPromptIffNothingFits | frontend/src/lib/suparna/edgeLogsPrompt.ts:58-96 | There is no prompt if and only if there are no entries, the header leaves less than 200 characters, or neither a candidate nor the first entry fits. |
| PromptPacker.PromptIsRefusedIffTooManyBytes | vpc-relay/edge/handlers.go:90-98 | The server trims the prompt and counts bytes: it refuses it if and only if the header, the lines the packer picks and the breaks between them, without the white space after the last line, take more than 2000. |
| PromptPacker.AsciiPromptIsRefusedIffNearlyFull | frontend/src/lib/suparna/edgeLogsPrompt.ts:98-109 | With ASCII only, that is if and only if more than 1998 characters are left after trimming: the header has a dash of three bytes. |
| PromptPacker.LongPromptIsOverInBytes | frontend/src/lib/suparna/edgeLogsPrompt.ts:1-2 | Whatever the texts are, more than 1998 characters after trimming are refused. |
| PromptPacker.AsciiLogThatIsRefused | frontend/src/lib/suparna/edgeLogsPrompt.ts:53-109 | On every day a log of one entry with a long plain tag makes a prompt of 2000 characters that is refused. |
| PromptPacker.ShortLogThatIsRefused | frontend/src/lib/suparna/edgeLogsPrompt.ts:53-109 | One entry with a tag of 700 three-byte characters is refused although its prompt is short. |

## Left out

- Crash.CrashTransparency: within one quest a saved view is never torn. Parameters repaired before the crash are those of the attempt again after it.
- MissionStore.Store.UpdateMission: what others do in between keeps the mission, and the hook reads it at one moment; views mixed quest by quest are the subject of Crash.
- FinalStatus.StatusesAreSpecified: is about the status of a quest; its parameters, reward and error are the subject of QuestRecords.
- QuestRecords.ToolGetsItsParams: of a reference to a quest that is no dependency it says that it may also be left, as that quest may be done earlier or later.
- MissionStore.Store.ApplyReward: the follow-up's title is cut by characters, the code cuts by bytes.
- SchedulerTheorems.Confluence: assumes that nobody edits the board through the web handlers during a run, and that a tool's outcome depends only on quest and attempt.
- SchedulerTheorems.RunsResolveTheBoard: speaks of quests that were pending or failed when the run began; quests left claimed or running by others are not taken on by the code either.
- PlannedBoard.Populate: does not model a mission that is cancelled while its plan is being added.
- Planner.AutoWireDeps: regular expressions are not matched; parameters come as tokens.
- Interpolation.InterpolateParams: the text a replaced value is printed as is not modelled, only the value.
- MissionStore.Store.LoadMissionsFromDB: rows that do not parse, the choice of the mission to resume and the time stamps are not modelled.
- MissionStore.Itoa: numbers of up to sixteen digits, the size of the code's buffer.
- Directory.ReleasedOnce: holds for requests one after the other; interleaved ones are the subject of DirectorySharing.
- DirectorySharing.SharedIffBothAdmitted: is about two requests, whose statements interleave, and takes as given that no stored time stamp lies in the future, which DirectorySharing.RunsLeaveStampsPast proves.
- Directory.Server.Get: two safes deposited in the same second are ordered by the database as it likes; the model takes one of the newest. The old protocol without an access time is left out.
- Cascade.Phone.MarkSeen: the deletion of seen ids after two days is left out, so all cascade results hold while the record is kept.
- CascadeNetwork.HopsCountLinks: is about the version that marks once; for the code as it stands CascadeNetwork.CascadeStopsAtTheOrigin says more.
- AlertFormat.RoundTripIffTransmittable: letters are compared without case for ASCII only, which is all the prefix has.
- MailboxRuns.OneAnswerPerJob: takes distinct job ids as an assumption, see MailboxRuns.JobIdsRepeat.
- ViewerHub.Hub.Teardown: the shell viewers' identical map, the device information and the sockets are left out.
- LogStore.Logs.Append: entries come with their day and rendered line; defaults for empty fields, the cut of long messages and I/O errors are left out. Days compare as numbers, as their names do for years of four digits.
- LogStore.Logs.ReadDay: lines over the scanner's limit of 1 MiB and names that are no day are left out.
- PromptPacker.PromptIsWhole: strings are sequences of characters of the basic plane; a character outside it, two units in the original, is left out. Lower case is ASCII.
- PromptPacker.PromptIsRefusedIffTooManyBytes: the client's own trimming before the request, which also takes away a byte order mark, is left out.
- SmsTable.Table.InsertDeduped: database errors and the status column are left out.
- Error texts, log lines and summaries carry no more than the model needs to tell cases apart.
- Language model calls, prompts and their answers; they appear as the plan, the tools' outcomes and the repairs.
- SQLite's retries and durability, HTTP handlers, Docker, the phone bridges and the web clients.
- Cryptography, embeddings, geometry, feeds, contacts, cron, provider fail-over and settings: they would only add easier members.

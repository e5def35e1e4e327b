# Verification model of agent_go

agent_go is a small agent runtime in Go: a conversation engine that alternates Chat calls with
batches of tool calls and keeps a bounded history, an in-process task manager with a store, a
registry of runs, rendezvous protocols for a tool server and for approvals, and a few codecs. This
project models that behaviour in Dafny and proves what holds of it over every input, every run and
every interleaving. Every `.dfy` file holds one module; `dafny verify dfyconfig.toml` checks them all.

How the parts fit together:

- **Conversation.** `Llm` has the messages and the protocol grammar. `History` splits, joins and
  trims by user turns, `Fold` compacts old tool trails, `Summary` writes and reads the one sticky
  summary, `Profile` is the bounded user profile. `Conversation` puts them together as the
  transitions of a session, `Agent` is the object that performs them in place, and `Grammar`,
  `LoopLaws`, `TrimLaws`, `SessionLaws` and `SummaryLaws` prove the laws of one loop, one commit,
  whole sessions and their sticky summaries. `SummaryFacts` and `ProfileLaws` say in terms of the
  messages and of the values written what a summary and a profile hold. `FanOut` is the concurrent
  execution of one batch, `Handoff` the recursion through the handoff tool, and `HandoffLaws` says
  which calls start a specialist and what the whole tree costs. The
  provider, the tools, the profile texts and the summary model are arbitrary functions of the turn,
  so a statement for all of them covers every adaptive behaviour.
- **Tasks.** `TaskStores` shows that the two stores answer alike, `Tasks` has the critical sections
  as functions, `TaskManager` the object that performs them, and `TaskSystem` every interleaving of
  submitters, cancellers, workers, Stop, crashes and restarts. There each step writes at most one
  record and moves at most one task, and a census counts the places of every id. `TaskRestarts` says
  when a task that has been begun can be started again, `TaskRecords` what the records and the queue
  say over a whole run: goals, times, order, answers to a cancel.
- **Runs.** `Runs`, `RunSystem` and `RunRegistry` do the same for the registry of runs, and
  `RunRecords` tells each record by the actions of the whole run. The order in
  which equally old runs are sorted is left to the step.
- **Rendezvous.** `McpClient` and `McpConnection` model request/response correlation (section 5 of
  the JSON-RPC 2.0 specification), `Approvals` and `ApprovalPark` the parked approvals. The objects
  hold the maps and channels; ghost parameters say where the goroutines are.
- **Codecs.** `Framing` and `FramedReader` are the length-prefixed messages (the header part of the
  base protocol in the Language Server Protocol 3.17 specification), `StreamAssembly` puts streamed
  fragments together, `Chunking` splits documents.

Fresh ids and the time are parameters of the steps. Only one result assumes anything about the
clock, and says so: `StrictClockKeepsTheRun`.

## What turned out not to hold

Each of these is a property one would expect, the exact condition under which the code has it, and an
input or a run from the start that reaches the failing case.

- A system prompt that begins with the profile or summary marker breaks the grammar of the history:
  `GrammarNeedsPlainPrompt`, `MarkerPromptBreaksGrammar`.
- The doc comment of `RestoreSession` calls it a no-op when Sessions is nil or empty. With an empty
  store the code replaces the history by the empty one (`agent/agent.go:363-376`), and the model
  follows the code: `RestoreIsNoOpIff`, `LostSaveForgets`.
- The summary is said to prefer the newest facts, but its rune cap cuts the end of the text, where
  they are: `NewestIsReadBackIff`, `NewestFactIsKeptIff`, `SeventhLongQuestionIsLost`.
- A lost write of a Running record lets a crash start the same task twice: `StartsAgainIff`,
  `LostWriteStartsTwice`.
- A run can be evicted by its own finish when the clock does not advance: `SurvivesOwnFinishIff`,
  `OwnFinishEvicts`.
- A tool-server call registered after the reader died is never answered: `AnswerableIff`,
  `LateCallIsNeverAnswered`.
- `Decide` may report success for an approval that is then denied: `AcceptedIsReportedIff`,
  `AcceptedButDenied`.
- A small cap on tool results is exceeded by the marker: `SmallCapOverflows`.
- `writeMsg` can write a body that `readMsg` refuses: `FramesRoundTripIff`.
- Tool calls streamed under a negative index are dropped: `NoCallLostIff`.

## Model

| member | source | states |
|---|---|---|
| Text.TruncateRunes | agent/agent.go:454-479 | The copying loop returns the text untouched when it fits the cap, otherwise a prefix of it followed by the marker with its original length, and reports a cut exactly when one happened. |
| Text.TruncatedLength | agent/agent.go:454-479 | A text of n > max > 0 runes is cut to exactly max runes when max > 32 + digits(n), and to max + 32 + digits(n) otherwise; always a non-empty prefix of the input plus the marker. |
| Text.SmallCapOverflows | agent/agent.go:454-479 | The result respects the cap if and only if max > 32 + digits(n). |
| Text.TruncatedFits | agent/agent.go:442-479 | For any text whose length is a 64-bit int, every cap above 51 runes is respected. |
| Text.ClipOneLineShape | agent/history.go:374-386 | A clipped fact is one trimmed line whose only white space is the blank, at most one rune (the ellipsis) over the bound. |
| Text.ClipKeepsWords | agent/history.go:374-386 | It says the words of the content in order, one blank apart: all of them, or the first max runes of that and an ellipsis; with the white space between them they spell the content. |
| Text.ClippedToNothingIff | agent/history.go:374-386 | Nothing is left of exactly the blank contents. |
| History.SplitUserTurns | agent/history.go:186-201 | The nested scans compute the prefix before the first user message and the turns that each start at a user message. |
| History.JoinAfterSplit | agent/history.go:186-219 | Prefix and turns concatenate to the list again; the prefix holds no user message and every turn exactly one, first. |
| History.SplitAfterJoin | agent/history.go:186-219 | Splitting a joined prefix and turns gives back exactly that prefix and those turns. |
| History.DropCountIsLeast | agent/history.go:162-184 | The trim keeps the longest suffix of whole turns that fits beside the prefix, or only the newest turn: every longer suffix is over the cap. |
| History.DropCountUnique | agent/history.go:162-184 | Conversely, any number of dropped turns with those two properties is the one the trim drops. |
| History.TrimByUserTurns | agent/history.go:162-184 | The loop that drops turn after turn returns kept list, dropped messages and count of the closed form. |
| History.TrimKeepsTurns | agent/history.go:162-184 | What is kept splits into the old prefix and a suffix of the old turns; the newest turn is never dropped. |
| History.TrimConserves | agent/history.go:162-219 | Kept and dropped messages, put back in place, are the original list. |
| Distinct.DedupeInOnePass | agent/history.go:360-372 | One pass with a set of seen keys keeps the first mention of every non-empty key. |
| Distinct.DedupeIsFirstMentions | agent/history.go:360-372 | The result lists exactly the positions whose key was not mentioned before, in order. |
| Distinct.NewestFirstMentions | agent/history.go:267-286 | After the bound of the newest n, the list is the last n first mentions in first-mention order. |
| Fold.FoldOneUserTurn | agent/fold.go:42-86 | The scan that collects tool notes and the last plain answer computes the folded turn. |
| Fold.FoldClosedTurn | agent/fold.go:42-86 | A finished turn folds to exactly its user message and one plain assistant message, the old answer verbatim unless that was blank and tools had run. |
| Fold.FoldPair | agent/fold.go:42-86 | Folding a folded turn changes nothing. |
| Fold.FoldOldTurns | agent/fold.go:17-37 | The in-place loop computes the folded list whose turns FoldLeaves describes, and leaves the prefix. |
| Fold.FoldLeaves | agent/fold.go:17-86 | With the number of recent turns itself: folding finished turns leaves each of them word for word when that number is negative or not exceeded, otherwise that many of the newest, and exactly the newest when it is 0; every other turn becomes its question and one assistant message, the answer or, where that is blank, a note of each tool result in order. |
| Fold.FoldOldLeaves | agent/fold.go:17-86 | On a list of messages: folding keeps what comes before the first turn and leaves the turns as FoldLeaves says. |
| Fold.FoldKeepsGrammar | agent/fold.go:17-86 | Folding finished turns yields finished turns, as many as before; which of them change is said by FoldLeaves. |
| Summary.FactsFromDropped | agent/history.go:318-358 | The loop over dropped messages lists the facts that FactsOfMessages describes. |
| SummaryFacts.FactOfMessage | agent/history.go:318-358 | A message leaves a fact if and only if it is a question or a tool result that is not blank, or an assistant text of 1 to 80 runes; the fact is who said it (user, tool and its name, asst) and the content clipped to 64 runes. |
| SummaryFacts.FactsOfMessages | agent/history.go:318-358 | The facts of a list are those of exactly the messages that leave one, in message order. |
| Summary.DedupeBullets | agent/history.go:360-372 | Bullets are deduplicated by their trimmed lower-cased text, first mention kept. |
| Summary.ParseSummaryBullets | agent/history.go:289-314 | The line loop reads the bullets under either header line. |
| Summary.ParseRendering | agent/history.go:267-314 | Parsing an uncapped rendering returns its bullets, for every list of one-line bullets. |
| Summary.BuildConversationSummary | agent/history.go:267-286 | Parse, extract, dedupe, bound, render and cap compose to the text of the bullets that BulletsAreNewest describes. |
| SummaryFacts.BulletsAreNewest | agent/history.go:267-286 | The bullets are, of the old bullets followed by the new facts, those not said before up to surrounding white space and case, the newest twelve, in order. |
| SummaryFacts.EveryBodyReads | agent/history.go:289-314 | A body of one-line bullets, written bare or after a dash, under the header, the legacy header or none, reads back as exactly those bullets. |
| Summary.SummaryRoundTrip | agent/history.go:267-314 | With the rendering under the rune cap, the next trim reads back the very bullets written. |
| Summary.CapCutsNewestBullet | agent/history.go:278-285 | Over the cap, a newest bullet that starts beyond the kept runes is lost altogether: what remains is a beginning of the rendering without it, plus the marker. |
| Summary.WholeTextIsKeptIff | agent/history.go:278-285 | The capped text begins with the whole rendering if and only if the rendering has at most 512 runes. |
| Summary.NewestIsReadBackIff | agent/history.go:267-314 | For any bullets: the newest one is still the newest that the next trim reads back if and only if the rendering fits the cap, or that bullet spells the very marker the cap puts in its place. |
| Summary.NewestFactIsKeptIff | agent/history.go:267-358 | For the facts of dropped messages, which never spell the marker: the newest fact, and with it the whole list of bullets, is read back if and only if the rendering fits the cap. |
| Summary.SeventhLongQuestionIsLost | agent/history.go:267-358 | Reached by seven dropped questions of 64 equal letters each: the seventh is the newest bullet written and not the newest one read back. |
| Summary.SuccessiveBullets | agent/history.go:267-286 | While the distinct facts number at most 12, two trims one after the other keep the bullets of one trim over both batches. |
| Summary.SuccessiveTrimsEqualOne | agent/history.go:226-314 | Any number of successive trims, each within the bounds, writes word for word the summary of all dropped turns at once. |
| Summary.UpsertSummary | agent/history.go:239-262 | The loop removes every old summary and puts the new one after a leading system message, or first. |
| Summary.UpsertOnConversation | agent/history.go:239-262 | On system, optional summary, turns: the new summary takes the one slot and nothing else moves. |
| Summary.ExtractAfterUpsert | agent/history.go:226-262 | The body read back after an upsert is the body written, up to surrounding white space. |
| Summary.FinalizeSummary | agent/summary_llm.go:71-103 | Extractive draft, decision to ask, answer and fallback compose to the final body. |
| Summary.CompressIff | agent/summary_llm.go:17-69 | The model's answer is used exactly when the call worked and brought 1 to 1024 runes. The text used ends in that answer and says that it is lossy; it is the answer alone exactly when the answer says so itself and is no bare list, otherwise the answer under the header; and it is cut to the cap. |
| SummaryFacts.FinalizeIff | agent/summary_llm.go:17-103 | The model's text becomes the body if and only if there is a provider, it is not disabled, the draft has the minimum of runes (180 by default, never when negative) and the call brought 1 to 1024 runes; otherwise the body is the draft. |
| Summary.FinalizeFits | agent/summary_llm.go:17-103 | Whatever the model answers, the sticky summary body is at most 512 runes. |
| SummaryLaws.SummaryTellsAllDropped | agent/history.go:130-314 | Without the summary model, after any sequence of Runs, Resets and restores the sticky summary is, word for word, the summary of all messages dropped since the last Reset written at once, whenever their facts fit that summary; the stored transcript's likewise. What that summary lists is said by EveryDroppedFactIsTold. |
| SummaryFacts.EveryDroppedFactIsTold | agent/history.go:130-358 | Under the same condition every dropped question, tool result and short answer that is not blank is told on a line of its own below the header of the sticky summary, up to white space and case. |
| SummaryLaws.SummaryStaysShort | agent/summary_llm.go:17-103 | Whatever the model answers, after any sequence of Runs, Resets and restores the sticky summary of the history, and of the stored transcript, has at most 512 runes, for tool names and a header of at most four gibirunes. |
| SummaryLaws.DroppedIsTheRest | agent/history.go:130-158 | The messages dropped over all rounds of a trim, followed by the turns it keeps, are the turns there were. |
| Profile.Memory.SetName | agent/memory.go:307-309 | Sets the clipped name and nothing else. |
| Profile.Memory.AddLike | agent/memory.go:311-325 | The scan under case folding plus append and reslice adds a new like and drops the oldest over 12. |
| Profile.Memory.AddNote | agent/memory.go:327-341 | The same for notes, compared exactly, over 16. |
| ProfileLaws.ClipRunesKeeps | agent/memory.go:343-349 | What is stored is the trimmed value, whole or its first max runes, and nothing exactly of blank values. |
| ProfileLaws.LikeIsWritten | agent/memory.go:311-325 | A like is added at the end unless it is blank or there already, rune by rune under folding; the thirteenth pushes the oldest out. |
| ProfileLaws.NoteIsWritten | agent/memory.go:327-341 | The same for notes, compared exactly, with the seventeenth. |
| Profile.Memory.ApplyPatch | agent/memory.go:251-283 | A patch is the sequence of its non-blank single writes, and succeeds exactly when there is one. |
| ProfileLaws.PatchWritesAll | agent/memory.go:251-283 | A patch has the effect of writing its name, unless that is blank, and then all its likes and notes as given. |
| ProfileLaws.EmptyPatchIff | agent/memory.go:251-283 | It is refused if and only if all of it is blank. |
| ProfileLaws.LastNameCounts | agent/memory.go:307-309 | After any interleaving of writes the name is the last one written, clipped to 40 runes. |
| ProfileLaws.LikesAreThoseWritten | agent/memory.go:311-325 | While at most twelve different likes have been written the likes are all of them, each as first written and clipped, in that order, whatever was written in between. |
| ProfileLaws.NotesAreThoseWritten | agent/memory.go:327-341 | The same for notes and sixteen. |
| ProfileLaws.BlockSaysTheFields | agent/memory.go:176-201 | The block of a profile that is not empty is the marker, the introduction and a line for each field that is set: the name, the likes joined, and every note. |
| Profile.EveryInterleavingIsGood | agent/memory.go:203-349 | After any interleaving of writes: likes at most 12 and pairwise distinct under case folding, notes at most 16 and pairwise distinct, every entry non-empty and within its rune limit. |
| Profile.NoteOrderDoesNotMatter | agent/memory.go:327-341 | When the distinct clipped notes fit the bound, two interleavings of the same notes end with the same set, and it is all of them. |
| Distinct.RollingIsDedupe | agent/memory.go:327-341 | While the distinct texts fit the bound, rolling additions are plain deduplication. |
| Conversation.StripProfileMessages | agent/agent.go:324-333 | The loop keeps exactly the messages that are not profile blocks, in order. |
| Conversation.UpsertProfile | agent/memory.go:357-382 | Filter, search and insertion put the block after the leading system messages. |
| Conversation.InjectIsInsertion | agent/memory.go:357-382 | Injecting is inserting the block, if any, into the filtered list after its leading system messages. |
| Conversation.TrimDropsUsers | agent/history.go:130-158 | The user messages that a trim leaves, also after any summary is inserted, and the turns it drops together number at most the user messages before; hence the trim loop ends. |
| AgentObject.Agent.Run | agent/agent.go:93-195 | The turn loop over a working copy realises the transition whose requests, end and history RunAsks, RunEnds and RunLeaves describe; while another Run is active nothing changes. |
| AgentObject.Agent.CommitHistory | agent/agent.go:308-322 | Strip, fold and trim replace the history by the commit of the model. |
| AgentObject.Agent.TrimHistory | agent/history.go:130-158 | The loop of trim and summary upsert on the object's history computes the trimmed history. |
| AgentObject.Agent.Reset | agent/agent.go:336-343 | Clears history and usage; the stored transcript goes only if the store deletes it. |
| AgentObject.Agent.RestoreSession | agent/agent.go:363-376 | Replaces the history by the stored transcript, which is empty when there is none. |
| SessionLaws.RestoreIsNoOpIff | agent/agent.go:362-376 | A restore changes nothing if and only if there is no store, the store does not answer, or what it answers is the history already; with an empty store it is a no-op only on an empty history. |
| SessionLaws.RestoreAfterRunIff | agent/agent.go:199-376 | Right after an answered Run a restore changes nothing if and only if there is no store, it does not answer, the save of that Run worked, or the old transcript is the new history. |
| SessionLaws.LostSaveForgets | agent/agent.go:354-376 | Reached from an empty session: after one answered Run whose save is lost, a restore leaves no history of it. |
| Grammar.LoopKeepsGrammar | agent/agent.go:111-195 | For every provider, tool and profile behaviour each Chat request of the loop is system, optional summary, optional profile, finished turns and one open turn; an answer closes that turn. |
| Grammar.AnswerIsLastMessage | agent/agent.go:152-166 | The text a Run answers is that of the last message it appended, a plain assistant message. |
| Grammar.LoopCountsEveryCall | agent/agent.go:131-148 | The loop makes at most one Chat call a turn, and its usage is the sum over every one of them, a failed one included. |
| TrimLaws.TrimOverCap | agent/history.go:130-158 | Over the cap, the two-phase loop keeps exactly the longest suffix of whole turns that fits beside the system message and one summary slot (or the newest turn alone), under one summary. |
| TrimLaws.TrimLeavesAlone | agent/history.go:130-158 | In the other cases it changes nothing: the list fits, or there is only one turn. |
| TrimLaws.SecondPhase | agent/history.go:130-158 | Once the summary sits in its slot one more round is enough. |
| SessionLaws.CommitIsGood | agent/agent.go:308-322 | A commit keeps the system message, leaves whole turns from the newest back, folded beyond the newest K, within the cap or a single turn. |
| SessionLaws.RunKeepsSession | agent/agent.go:93-204 | From any history that fits the grammar, under whatever limits it was saved: a failed Run leaves history, session usage and transcript untouched; a successful one appends one finished turn that starts with the input and survives verbatim as the newest, adds its usage, and leaves a history within the cap and the fold. |
| SessionLaws.RunAsks | agent/agent.go:93-195 | Every Chat request of a Run, word for word: the system messages of the history (one message with the prompt when there is no history yet), the current profile block if any, the earlier turns, the input, and the replies so far each followed by one tool message per call, which names the call and holds its result, whole within the cap and otherwise a beginning of it and the marker. |
| SessionLaws.RunEnds | agent/agent.go:111-195 | A Run answers if and only if a reply without tool calls came before the last turn ran out, the context ended or a call failed; it answers that reply's text, trimmed, and the other endings are told apart in the source's order; its usage is the sum over all its calls. |
| SessionLaws.RunLeaves | agent/agent.go:93-322 | The history an answered Run leaves: its newest turn is the input, all replies and their tool messages; the turns before it are the newest of the earlier ones, each word for word or folded by the number of recent turns; and the answer is the trimmed text of its last message. |
| SessionLaws.CommitFoldsOldTurns | agent/agent.go:308-322 | The turns a commit keeps are the newest of the turns there were, each left alone or folded as the number of recent turns says. |
| SessionLaws.SavedSessionComesBack | agent/agent.go:336-376 | A Reset forgets history and usage; if the save of the Run before it worked and the store does not delete, a restore brings that history back. |
| SessionLaws.EverySessionIsGood | agent/agent.go:93-376 | After any sequence of Runs, Resets and restores: history and transcript fit the grammar and the cap, and every Chat request ever sent fits the request grammar. |
| SessionLaws.EverySessionFits | agent/agent.go:93-376 | The same for a session whose history and transcript only fit the grammar at first: they always do, and so does every Chat request. |
| SessionLaws.OldTranscriptBecomesGood | agent/agent.go:93-376 | Such a session keeps the cap and the fold as well from its first answered Run on. |
| SessionLaws.SessionUsageIsTotal | agent/agent.go:199-204 | Session usage is the sum over exactly the Runs that answered since the last Reset. |
| SessionLaws.GrammarNeedsPlainPrompt | agent/agent.go:423-438 | The first committed history fits the grammar if and only if the system prompt begins with neither the profile nor the summary marker. |
| SessionLaws.MarkerPromptBreaksGrammar | agent/agent.go:423-438 | Reached in the first Run: with the profile marker as the prompt and a provider that answers, the history does not fit the grammar. |
| SessionLaws.ToolMessagesAreCapped | agent/agent.go:442-451 | Under the default cap every tool message is at most 4096 runes; what it holds is said by Conversation.ToolMessagesHoldResults. |
| Conversation.CapKeeps | agent/agent.go:442-451 | A tool result is kept whole when the cap is negative or not exceeded (4096 runes when 0), and is otherwise a non-empty beginning of it and the marker with its length. |
| Conversation.ToolMessagesHoldResults | agent/agent.go:174-188 | Message k of a batch has the id and the name of call k and its result, kept or cut in that way. |
| FanOut.NeverMoreThanSlots | agent/agent.go:257-304 | For every schedule at most conc calls are between acquiring and releasing the semaphore. |
| FanOut.MostAtOnce | agent/agent.go:257-304 | At most the configured number of calls hold the semaphore at once, all of them when that is 0, negative or not exceeded, and some schedule reaches that bound. |
| FanOut.SomeStepEnabled | agent/agent.go:257-304 | No deadlock: until all goroutines have finished one of them can move. |
| FanOut.SchedulesEnd | agent/agent.go:257-304 | A schedule has at most six steps per call, and that many exactly when all calls have finished. |
| FanOut.JoinFollowsCallOrder | agent/agent.go:174-188 | At the join slot i holds the result of call i, whole within the cap and otherwise a beginning of it and the marker, with one start and one end event each; the tool messages follow call order whatever the completion order. |
| FanOut.Batch.Move | agent/agent.go:270-300 | One step of goroutine i on the shared slots, semaphore and event log. |
| FanOut.ExecuteToolCalls | agent/agent.go:257-304 | Under any scheduler it terminates with result i in slot i and exactly one start and one end event per call. |
| Handoff.NewRoster | agent/handoff.go:26-36 | A name is on the roster if and only if it is not blank and some specialist has it, white space around it aside, and then it stands for the last such specialist. |
| Handoff.FilterToolsLoop | agent/handoff.go:90-106 | The two loops grant a specialist every allowed tool of the parent except handoff. |
| Handoff.NoHandoffNoChild | agent/handoff.go:51-106 | An agent without the handoff tool starts no child and makes at most one Chat call per turn. |
| Handoff.HandoffIsBounded | agent/handoff.go:51-88 | From any turn on: nesting is at most one deep, and Chat calls are bounded by the turns left plus maxTurns per child started. |
| Handoff.RunIsBounded | agent/handoff.go:51-88 | A whole Run makes at most maxTurns times (1 + handoffs that started a child) Chat calls. |
| HandoffLaws.StartsIff | agent/handoff.go:51-106 | A tool call starts a specialist if and only if it is a handoff call of an agent that has the tool, names some specialist, white space aside, and has a goal that is not blank. |
| HandoffLaws.FilterKeepsOrder | agent/handoff.go:90-106 | A specialist gets exactly the allowed tools of the agent, in its order, and never handoff. |
| HandoffLaws.ChildToolsAre | agent/handoff.go:51-106 | The tools of the child are those allowed to the last specialist of the name called. |
| HandoffLaws.HandoffsStart | agent/handoff.go:51-88 | The specialists started are exactly the well-formed handoff calls of the turns the agent reaches, one level deep, and the Chat calls of the whole tree are exactly the agent's own turns and those of each specialist; how many turns each of them takes is said turn by turn. |
| TaskStores.FindAfterUpsert | task/store.go:72-106 | A Put changes the answer to Get for its own id and for no other. |
| TaskStores.ListedAfterUpsert | task/store.go:30-60 | Updating the map and extending the order is an upsert on the listed tasks. |
| TaskStores.MemoryStore.Put | task/store.go:30-41 | Map and order update upserts the listed contents. |
| TaskStores.MemoryStore.Get | task/store.go:43-48 | Answers like a search of the listed contents. |
| TaskStores.MemoryStore.List | task/store.go:50-60 | The loop lists the contents in insertion order. |
| TaskStores.FileStore.Put | task/store.go:72-91 | The search loop replaces in place or appends; a failed write changes nothing. |
| TaskStores.FileStore.Get | task/store.go:93-106 | The search loop finds the first task with the id. |
| TaskStores.StoresAgree | task/store.go:30-116 | After the same Puts both stores give the same List and the same answer to every Get. |
| Tasks.BlankGoal | task/task.go:386-400 | Trimming leaves nothing of a goal exactly when it is made of blanks, tabs and newlines. |
| Tasks.TrimGoalCuts | task/task.go:386-400 | Of any other goal the text between the blanks, tabs and newlines at its ends is left, to the last rune. |
| Tasks.RestoreRewrites | task/task.go:105-134 | A restore rewrites in the store exactly the interrupted tasks whose write works, in place, and touches nothing else. |
| Tasks.RestoreLoads | task/task.go:105-134 | It loads every stored task in order, running ones as failed. |
| Tasks.RestoreRequeues | task/task.go:123-129 | It requeues only queued tasks, each once, never more than the queue holds. |
| TaskRecords.RestoreQueuesInOrder | task/task.go:123-129 | It requeues the first of the queued tasks in stored order, as many as the queue holds. |
| TaskManager.Manager.constructor | task/task.go:73-103 | A new manager is the restore of its store, or empty when the store cannot be read. |
| TaskManager.Manager.Submit | task/task.go:156-187 | Empty goals are refused without a trace; otherwise the returned snapshot, which is the record, has the id, the trimmed goal and the time of the call, and is queued, or failed with the reason that is also the error. |
| TaskManager.Manager.SetTerminal | task/task.go:358-370 | Overwrites status, result, error and finish time of a known task and persists it. |
| TaskManager.Manager.Cancel | task/task.go:215-244 | The three cases: terminal untouched, queued cancelled and persisted, running gets its registered cancel function called. |
| TaskManager.Manager.BeginRun | task/task.go:284-306 | Only a queued task becomes running, persisted before the runner is called, with a fresh cancel function. |
| TaskManager.Manager.EndRun | task/task.go:317-356 | The runner's outcome and the state of its context determine the final record, which is persisted. |
| TaskManager.Manager.Stop | task/task.go:144-152 | Every registered cancel function has been called and forgotten. |
| TaskManager.Manager.List | task/task.go:201-211 | The loop lists the tasks in creation order. |
| TaskSystem.StepKeepsInv | task/task.go:105-370 | Every step of every goroutine, and a crash with restart, keeps the whole system invariant. |
| TaskSystem.StoreAgrees | task/task.go:136-175 | At every lock release since a complete restore, if all writes since worked, the store lists exactly the tasks in memory and every Get agrees. |
| TaskRecords.GoalsAreSubmitted | task/task.go:105-315 | Over every run from the first manager on, crashes and restarts included: in memory, in the store and in every call of its runner a submitted task has the goal of its own Submit, and its creation time; a task of the first store keeps those it had. |
| TaskRecords.EveryTaskWasSubmitted | task/task.go:105-315 | Every task in memory, in the store or given to a runner was submitted in the run or was in the first store. |
| TaskRecords.EveryStartHasAWorker | task/task.go:284-306 | A queued task becomes running exactly when the worker that holds it begins it; nothing else of its record changes but the start time, and the worker has its goal. |
| TaskRecords.FirstInFirstOut | task/task.go:156-282 | Between crashes: what waited in the queue and what was sent is what the workers received, in that order, followed by what still waits. |
| TaskSystem.RestoredTask | task/task.go:105-134 | After a crash over a store that agrees and can be read, a task is what it was, unless it was running: then it has failed as interrupted. |
| TaskSystem.RunnerStartsAtMostOnce | task/task.go:105-134 | Across any number of crashes each task's runner starts at most once, provided the writes of Running records work; all other writes may fail. |
| TaskSystem.LostWriteStartsTwice | task/task.go:299-315 | Without that proviso it fails, from the first manager on: a run in which one Running record is lost starts the same task twice. |
| TaskRestarts.StartsAgainIff | task/task.go:105-315 | In every reachable state, whatever writes were lost: a task that has been begun can be started again, with every further Running record written, if and only if the store lists it as queued or a worker that has begun it has yet to call its runner; otherwise no continuation at all starts it again. |
| TaskSystem.EachTaskInOnePlace | task/task.go:123-187 | In every reachable state an id is in at most one of an unsent Submit, the queue, one worker's hands, the overflow of a restore; queued tasks are in one of them, running ones in a worker's. |
| TaskSystem.RankNeverDropsInRun | task/task.go:156-370 | Over any run whose restarts read a store that agrees, no task is forgotten and its rank queued < running < terminal never drops. |
| TaskSystem.TerminalStays | task/task.go:177-187 | A terminal record is rewritten only by a refused Submit, and only from cancelled to failed. |
| TaskSystem.EveryEndHasACause | task/task.go:177-370 | A task ends only by a cancel while queued, a refused Submit, or its own runner, and its record says so: success with the runner's result exactly when there was no error, cancelled rather than failed exactly when its context had ended. |
| TaskSystem.CancelReachesTheRunner | task/task.go:215-244 | Cancelling a running task, even after Stop emptied the cancel functions, leaves its context cancelled as long as it runs, and it never ends as failed. |
| TaskRecords.CancelIsAnswered | task/task.go:215-244 | A cancel is refused exactly for unknown and for finished tasks, without a change; otherwise the record it answers with is the task's own, cancelled if it had not started, and the context of a running task has ended. |
| Runs.EvictsOldest | run/registry.go:274-299 | An eviction removes only finished records, no younger than any it keeps, and leaves exactly the maximum when there were more. |
| RunSystem.StepKeepsInv | run/registry.go:99-272 | Start, finish, Cancel and Annotate keep the two maps paired, every running record manned, and the finished ones bounded. |
| RunSystem.SessionsAreExclusive | run/registry.go:141-233 | In every interleaving no session has two runs going, InFlight is the number of running records, and finished records never exceed the maximum. |
| RunSystem.RecordsAreStable | run/registry.go:215-299 | A running record is never evicted by another run, and a terminal one never changes but for its channel error until it is evicted. |
| RunSystem.ConflictIffBusy | run/registry.go:141-147 | Start is refused exactly when the session has a run going; the conflict names that run and nothing changes. |
| RunSystem.OutcomeIsRecorded | run/registry.go:235-261 | An ended context beats the runner's error, which beats its output; status, usage, output, error and finish time say exactly that. |
| RunRecords.RecordsTellTheirRuns | run/registry.go:99-261 | In every interleaving each record has the session, the input and the time of its own Start, the outcome of its own finish exactly if that has happened, and the channel error of the last annotation since, or none. |
| RunSystem.OldestGoFirst | run/registry.go:274-299 | What a finish evicts is no younger than any finished record it keeps. |
| RunSystem.CancelIsFinal | run/registry.go:186-261 | Once Cancel has found a run running it never ends as succeeded or failed. |
| RunSystem.SurvivesOwnFinishIff | run/registry.go:235-299 | A run survives its own eviction under every tie-break if and only if fewer than the maximum have finished or one of them is strictly older. |
| RunSystem.OwnFinishEvicts | run/registry.go:235-299 | Reached from an empty registry for one record: of two runs that finish at the same reading of the clock the second is evicted by its own finish. |
| RunSystem.StrictClockKeepsTheRun | run/registry.go:235-299 | With a clock later than every time read before, the run being finished always survives. |
| RunRegistry.Registry.Start | run/registry.go:99-150 | Blank session names are replaced by a minted one; a busy session gives a conflict with the blocking run and no change; otherwise both maps gain the run. |
| RunRegistry.Registry.Finish | run/registry.go:235-272 | Terminal status, output, error and usage by context and runner error; the session is freed if it is still this run's; then eviction. |
| RunRegistry.Registry.EvictLocked | run/registry.go:274-299 | The deleting loop removes the surplus from the front of the sorted finished runs and nothing else. |
| RunRegistry.Registry.Cancel | run/registry.go:186-200 | Unknown, already finished, or requested, without changing the registry. |
| RunRegistry.Registry.Annotate | run/registry.go:215-226 | Changes the channel error of a known record only. |
| McpClient.StepKeepsInv | mcp/client.go:98-171 | Every step of callers, reader and closer keeps: a pending key has an empty channel, and a response on its way carries the key of its call. |
| McpClient.EveryCallGetsItsOwn | mcp/client.go:98-171 | For any server behaviour and interleaving a returned call brought a response under its own key that the server sent or the failed reader made, or its own write error, or its own context's error. |
| McpClient.SendsNeverBlock | mcp/client.go:117-136 | Neither the read loop nor failAll ever blocks on a channel. |
| McpClient.AnswerableIff | mcp/client.go:142-171 | A waiting call can return without its own cancellation if and only if its response is under way or the reader is alive: a call registered after the reader died waits for its context. |
| McpClient.LateCallIsNeverAnswered | mcp/client.go:98-171 | Reached from the start: a call made after the stream failed waits on in every continuation that does not cancel it. |
| McpConnection.Client.Number | mcp/client.go:142-148 | A closed client refuses; otherwise the next id gets an empty channel. |
| McpConnection.Client.Write | mcp/client.go:149-152 | Registers the channel under the id's key in the section that writes the request. |
| McpConnection.Client.Look | mcp/client.go:116-125 | The lookup removes the key it finds and nothing else. |
| McpConnection.Client.FailAll | mcp/client.go:129-136 | The loop answers every pending call with the error under its own key and empties the map. |
| Approvals.OneDecision | httpapi/approve.go:93-108 | At most one Decide gets past the removal of an id, and its send never blocks. |
| Approvals.ApprovalWasDecided | httpapi/approve.go:57-84 | A returned Approve is no longer waited for, and it returned an answer if and only if its select took neither the context nor the timer in that run and the Decide that took its id was called with that answer. |
| Approvals.AcceptedDecisionIsDeliveredOrLate | httpapi/approve.go:57-108 | An accepted decision has been received or is in the channel of a waiting Approve if and only if the select of that Approve never took the context or the timer. |
| Approvals.AcceptedIsReportedIff | httpapi/approve.go:71-108 | For an accepted decision and a returned Approve: Approve reports that decision if and only if its select took neither the context nor the timer, and an ended context or an expiry if and only if it took one of them. |
| Approvals.AcceptedButDenied | httpapi/approve.go:74-108 | The failing case is reached: Decide accepts before the deadline, the answer is in the channel, the context ends, and the select takes the context. |
| Approvals.ExpiresAfterDeadline | httpapi/approve.go:57-108 | After any run, a Decide that removed a parked approval is answered as expired exactly when it sends after the deadline the approval was parked with, and as accepted otherwise. |
| Approvals.UnknownIff | httpapi/approve.go:93-100 | A Decide is answered as unknown exactly when nothing waits under its id, which is so if nobody asked, Approve has returned or another Decide took it. |
| ApprovalPark.Park.Ask | httpapi/approve.go:57-65 | Registers an empty channel and the deadline. |
| ApprovalPark.Park.Decide | httpapi/approve.go:93-108 | Unknown ids are refused; a known one is removed and, unless expired, answered. |
| Framing.AtoiDecimal | mcp/codec.go:65-70 | Parsing a printed length gives it back, within a 64-bit int. |
| Framing.FrameRoundTrip | mcp/codec.go:13-86 | A frame followed by anything is read back whole with the rest untouched when its body has 1 byte to 16 MiB; an empty body reads as a missing length, a larger one as too large. |
| Framing.LineRoundTrip | mcp/codec.go:45-49 | A non-empty line that does not look like the length header and has no white space rune of UTF-8 at either end is read back as a message. |
| Framing.TrimBytesTrims | mcp/codec.go:49-60 | What byte trimming leaves is empty or has no white space rune of UTF-8 at either end. |
| Framing.StreamRoundTrip | mcp/codec.go:13-86 | Any mix of frames and lines is read back exactly, in order, up to whatever follows. |
| Framing.FramesRoundTripIff | mcp/codec.go:13-86 | Decoding the concatenation of frames gives exactly the bodies and then the end of the stream if and only if every body has 1 byte to 16 MiB. |
| Framing.BreaksAt | mcp/codec.go:75-80 | The first body out of range ends the reading there, with the error its size deserves. |
| FramedReader.Writer.WriteMsg | mcp/codec.go:13-20 | Appends one frame to the stream. |
| FramedReader.Reader.ReadLSP | mcp/codec.go:52-86 | The header loop and the body read consume what the specification says. |
| FramedReader.Reader.ReadMsg | mcp/codec.go:22-50 | Skips blanks, tells frame from line, and consumes exactly one message. |
| FramedReader.Reader.ReadLoop | mcp/client.go:98-108 | Reads all messages up to the failure of the stream, empty ones skipped. |
| FramedReader.WriteThenRead | mcp/codec.go:13-86 | Writer and reader composed: the bodies come back, then the end of the stream. |
| StreamAssembly.StreamAcc.ApplyChunk | llm/openai_stream.go:182-226 | Usage, role, content, handed-on text and calls of the first choice are folded into the accumulator. |
| StreamAssembly.StreamAcc.AddCall | llm/openai_stream.go:207-225 | Non-empty parts replace, argument text is appended, a new index starts a call of kind function. |
| StreamAssembly.StreamAcc.Message | llm/openai_stream.go:228-253 | The two loops return the message whose calls CallsAscend describes and whose role LastRoleCounts does. |
| StreamAssembly.StreamLeaves | llm/openai_stream.go:182-226 | The content is the concatenation of the fragments, and so is that of the texts handed on. |
| StreamAssembly.LastUsageCounts | llm/openai_stream.go:183-193 | The usage is that of the last chunk that reports any, as one call, a missing total filled in with the sum. |
| StreamAssembly.LastRoleCounts | llm/openai_stream.go:198-232 | The role is the last one that came in a first choice, and the assistant's if none came. |
| StreamAssembly.CallFromFragments | llm/openai_stream.go:207-225 | The call at an index is assembled from the fragments with that index and from no other. |
| StreamAssembly.InterleavingDoesNotMatter | llm/openai_stream.go:182-253 | Streams with the same content and the same fragments per index give the same message, however interleaved and cut. |
| StreamAssembly.Reassembles | llm/openai_stream.go:182-253 | Any stream that spells out a message's content and, index by index, its calls is reassembled to that message: as many calls, in ascending order of index, each word for word. |
| StreamAssembly.CallsAscend | llm/openai_stream.go:238-251 | The message's calls are those with a non-negative index, in strictly ascending order, each with the id, name and arguments assembled for it, and kind function where none came. |
| StreamAssembly.NoCallLostIff | llm/openai_stream.go:238-251 | No call is lost if and only if no fragment came with a negative index. |
| Chunking.SplitIntoBlocks | rag/chunk.go:48-80 | The line loop with its flushes computes the blocks. |
| Chunking.SplitRunes | rag/chunk.go:82-97 | The cutting loop returns the pieces. |
| Chunking.PiecesConcat | rag/chunk.go:82-97 | The pieces of a block concatenate to the block. |
| Chunking.ChunkDocument | rag/chunk.go:25-46 | The nested loops number all pieces of all blocks. |
| Chunking.NothingButSpaceIsLost | rag/chunk.go:25-97 | The non-white-space runes of the chunks, concatenated, are those of the document in order. |
| Chunking.ChunksFit | rag/chunk.go:16-46 | Every chunk has 1 to MaxRunes runes (480 by default) and the ids number 1 to n. |
| Chunking.BlocksThatFitAreChunks | rag/chunk.go:16-46 | If no block is longer than MaxRunes (480 by default) the chunks are the blocks: only longer ones are cut. |
| Chunking.SeparatorsSeparate | rag/chunk.go:61-72 | A heading or a blank line separates: the blocks are those of the lines before it followed by those of the rest. |
| Chunking.ParagraphIsOneBlock | rag/chunk.go:69-77 | Lines of text in a row make one block: the lines joined by newlines, trimmed. |
| Chunking.HeadingsBeginBlocks | rag/chunk.go:61-68 | Heading lines and the blocks that start as headings correspond one to one, in order, each heading beginning its block. |
| Chunking.HeadingsBeginChunks | rag/chunk.go:25-97 | The headings begin chunks of their own, up to the rune budget: the chunks' positions strictly increase with the headings. |

## Left out

- Log lines, spans, progress labels, run ids, request ids and statistics: they do not feed back into the behaviour; the count of folded turns that `foldOldTurns` also returns is only logged.
- The default system prompt is represented by its first line; only whether a prompt begins with a marker matters.
- Unicode: texts are sequences of runes, lower-casing and case folding are arbitrary rune-wise maps, and mappings that change the number of runes are not modelled.
- Reset or restore of an agent during a Run: each method of the agent is one transition, and a second Run during the first is refused.
- Reading, writing and locking of session, memory and task files: a store is one atomic value, and every access either works or changes nothing.
- Saving the profile to disk.
- JSON marshalling and unmarshalling, server-sent-event scanning, process handling and HTTP: the model starts from decoded messages, chunks and byte bodies.
- Waiting on a task or a run, and the two-second wait of the registry's Cancel: polling and timers; cancellation itself is a step.
- A nil runner, a nil store and a nil context: the model always has them.
- Contexts are modelled by whether they have ended; deadlines of runs are part of that.
- 64-bit counters do not wrap: usage sums, call ids and lengths are unbounded, except where a length is parsed.
- TaskManager.Manager.Submit: the locked section and the select that follows it are one uninterrupted call of the object; what other goroutines do in between is covered by the separate steps Submit, Send, Refuse and Fail of `TaskSystem`.
- ApprovalPark.Park.Decide: the removal and the send are one uninterrupted call of the object; what happens in between is covered by the separate steps Remove and Send of `Approvals`.
- FramedReader.Reader.ReadMsg: errors of the underlying stream other than its end and the wait of the 15-byte peek on a live pipe are not modelled.
- Framing.FrameRoundTrip: bodies are arbitrary characters, of which bytes are a special case; bodies longer than a 64-bit int are excluded because they cannot exist.
- StreamAssembly.StreamAcc.Message: the role is kept as text, since a provider may send any.
- TaskSystem.StepKeepsInv: the cleanup of a finished run (cancel, then delete under the lock) is one step; nothing observes the context of a task that has ended.
- RunRegistry.Registry.Finish: the library sort is represented by any listing of the finished runs in order of time; classification of errors as chat errors is part of the outcome.
- Vector search, hashing, grep, the tool bridge's allowlist, redaction, plugins, workflows and the command line: easy members, or they rest on libraries.

# Verification of the stateful core

This project models the parts of the repository whose guarantees only show over whole runs, and proves
those guarantees with Dafny. `dafny verify dfyconfig.toml` checks everything.

| file | component |
|---|---|
| `SampleBuilder.dfy` | the trajectory sample builder: token captures of a rollout merged into training samples by prefix extension, realignment after drift, and forking |
| `DurableCache.dfy` | the durable session cache: background writes, deletes, clears and hydrations fenced by generations, as a state machine over the code between two awaits |
| `DurableFreshness.dfy`, `DurableStored.dfy`, `DurableMemory.dfy`, `DurableClosed.dfy` | how fresh that cache is: which view a hydrate brings back, when the store holds the latest one, what memory holds; and what closing it does |
| `ViewCache.dfy` | the byte-bounded in-memory session cache, and the eviction of the durable one |
| `Timeline.dfy`, `Projection.dfy`, `ProjectionRuns.dfy` | the session projection: a reducer that mirrors the Host's event log over an unreliable stream, and what each of its fields holds after a run |
| `Coalescing.dfy` | the frame-coalesced dispatch of projection events |
| `StreamBuffer.dfy`, `StreamDrafts.dfy`, `StreamHost.dfy` | the live stream buffers, their pacing and the retained drafts; which text ends in a draft; the Host's side of the stream |
| `ConnectionManager.dfy` | reference-counted channel subscriptions with warm leases, reconnect and fenced acknowledgements |
| `RunEvents.dfy` | the resumable subscription to durable run events |
| `Minimize.dfy` | the ddmin failure minimiser |
| `Journal.dfy`, `JournalCodec.dfy` | the hash-chained durable journal with writer fencing and torn-tail recovery |
| `Ustar.dfy`, `WorkspaceArchive.dfy`, `ArchivePaths.dfy` | the deterministic workspace archive, byte by byte, a ustar reader, and what its path check means |
| `Common.dfy` | options and results |

Code that updates state in place is a class or an array method whose postconditions tie the new state to a
function of the old one; whole-run claims are lemmas over runs, or methods (`RunManager`, `RunStream`, `RunCache`,
`RunCoalesced`, `Subscribe`, `BuildSamples`) that take an arbitrary input sequence. Code outside the model (the kernel's
`step`, JSON, SHA-256, `localeCompare`, token sizes, clocks, user callbacks) enters as a parameter and is
constrained only by the laws a claim needs.

Ten promises do not hold of the code as it stands; each has its exact condition:

- A delete made before the durable cache was ever enabled does not reach the store, and a later hydrate
  brings a well-formed stored view back, unless a clear is still queued (`DurableCache.DeleteSticksIff`).
- The view that a hydrate brings back is outdated exactly when the store, at the moment it was read, did not hold
  the session's latest set or patch (`DurableFreshness.HydrateOutdatedIff`). Whatever it brings back, it cancels the
  live write of the session if there is one (`DurableFreshness.HydrateCancelsIff`), so an update can be lost
  (`DurableFreshness.HydrateLosesUpdate`), even one whose write has reached the store
  (`DurableStored.HydrateUndoesWrite`). An update that nothing disturbs stays exactly when its write did not find a
  newer cursor in the store (`DurableStored.LatestStoredIff`).
- A ready message taken in the middle of a draft is to replace the old tail; the client keeps that tail as a
  retained draft and shows its text twice, exactly when it has text of the draft that the Host's snapshot holds
  (`StreamHost.RepeatsIff`, a run in `StreamHost.ReconnectRepeats`).
- A crash that leaves a whole journal record without its newline makes the journal unreadable after the next
  append, and no other crash does (`Journal.CrashThenAppendIff`). If that append is cut off too, the journal
  stays readable but a record already returned is lost (`Journal.SecondCrashLoses`); over runs with any crashes,
  `Journal.RunGrowsIff` says when the log only grows.
- `append` does not check a transaction's own hash, so it keeps the journal readable exactly for correctly
  hashed transactions (`Journal.AppendReadableIff`).
- Without required log-probabilities a trained token can carry a log-probability no turn gave it, exactly when
  the list of some turn that trains does not start at its output or does not reach the token
  (`SampleBuilder.OnPolicyIff`; `SampleBuilder.LogProbsMayShift` shows two such turns).
- The "deterministic" archive depends on the order of the units exactly when two different paths compare
  equal under the locale order, as canonically equivalent strings do (`WorkspaceArchive.ArchiveOrderIff`).
- The check that unit paths are contained lets a path through that goes nowhere and then up, and no other that
  leaves its directory (`ArchivePaths.InsideIff`).
- An error dispatched without flushing (history timeout, failed subscription) is lost exactly when a live
  append waits in the buffer (`Coalescing.ErrorBypassIff`, over runs `Coalescing.RunCoalesced`).
- A subscription to run events is left without a source and without a timer, not stopped, exactly when the last
  state callback of a reconnect threw (`RunEvents.Subscribe`; per handler `RunEvents.ErrorStrandsIff` and
  `RunEvents.EventStrandsIff`; a run in `RunEvents.ThrowingCallbackStrands`).

The laws assumed of the journal's JSON text and digest are consistent: `JournalCodec.LawsConsistent`.
In `ConnectionManager` the server adds restored channels to those of the connection, as the Host's handler does.

## Model

| member | source | states |
|---|---|---|
| `SampleBuilder.SampleOnPolicy` | integrations/slime_agent_kernel/sample_builder.py:94-174 | every response position of an emitted sample with a non-zero loss mask comes from one output token of one of its turns: the tokens up to it are exactly that turn's prompt and output so far, with that turn's mask and log-probability |
| `SampleBuilder.TrainedOnPolicy` | integrations/slime_agent_kernel/sample_builder.py:103-119 | the same claim on the builder's arrays after any run of extensions and realignments |
| `SampleBuilder.OnPolicyIff` | integrations/slime_agent_kernel/sample_builder.py:103-119 | of any segment, with log-probabilities required or not: whatever values the log-probability lists hold, every trained token is trained with the log-probability its own turn gave it, if and only if every surviving turn that trains a token has its list start where its output does and reach that token |
| `SampleBuilder.RequiredInPlace` | integrations/slime_agent_kernel/sample_builder.py:206-220 | required log-probabilities are in place in this sense |
| `SampleBuilder.CoveredOnPolicy` | integrations/slime_agent_kernel/sample_builder.py:103-119 | the converse: every output position of a turn that no realignment cut off is trained under that turn's own context, mask and log-probability |
| `SampleBuilder.MaskedOnContext` | integrations/slime_agent_kernel/sample_builder.py:103-119 | without required log-probabilities, a trained position still stands in exactly the context it was sampled under |
| `SampleBuilder.OverlayLaid` | integrations/slime_agent_kernel/sample_builder.py:176-195 | exact contents of the mask and log-probability arrays: the marks of each surviving turn at its output, zero everywhere else |
| `SampleBuilder.SegmentPrefixes` | integrations/slime_agent_kernel/sample_builder.py:94-119 | along a segment prompts only grow, and prompt plus output of a surviving turn is a prefix of every later prompt |
| `SampleBuilder.SegmentsSplit` | integrations/slime_agent_kernel/sample_builder.py:39-52 | the loop splits the turns into consecutive non-empty segments that cover all of them and break exactly where a turn neither extends nor realigns the previous one |
| `SampleBuilder.KeptValid` | integrations/slime_agent_kernel/sample_builder.py:46-52 | a kept segment is a trainable run of the validated turns, and with required log-probabilities its arrays have equal length, so the length errors cannot occur |
| `SampleBuilder.KeptInOrder` | integrations/slime_agent_kernel/sample_builder.py:39-52 | the segments that become samples are exactly the trainable ones, each once and in order |
| `SampleBuilder.SampleCarries` | integrations/slime_agent_kernel/sample_builder.py:120-174 | what a sample is: its tokens are the last turn's prompt and output, its response is what follows the first prompt, with mask and log-probabilities as long as it; every output token of a surviving turn has that turn's mask (and required log-probability) and stands in its context, and every other response position is untrained |
| `SampleBuilder.RequiredLogProbsFit` | integrations/slime_agent_kernel/sample_builder.py:143-146 | with required log-probabilities the three arrays stay aligned |
| `SampleBuilder.RewardConserved` | integrations/slime_agent_kernel/sample_builder.py:149-150 | the reward shares of the forks add up to the raw reward |
| `SampleBuilder.LogProbsMayShift` | integrations/slime_agent_kernel/sample_builder.py:106-119 | two turns for which, without required log-probabilities, a sample is built whose trained token carries a log-probability no turn gave it |
| `SampleBuilder.Validate` | integrations/slime_agent_kernel/sample_builder.py:206-220 | a capture passes exactly when schema, lengths and (if required) log-probabilities are right, and is then taken over unchanged |
| `SampleBuilder.Admit` | integrations/slime_agent_kernel/sample_builder.py:103-119 | the loop takes a capture exactly if it validates and its log-probability field is no null or scalar |
| `SampleBuilder.CommonPrefixLen` | integrations/slime_agent_kernel/sample_builder.py:198-203 | the longest common prefix: equal up to the result and different there |
| `SampleBuilder.Builder.CanAppend` | integrations/slime_agent_kernel/sample_builder.py:94-101 | true exactly when the turn extends the tokens or may be realigned |
| `SampleBuilder.Builder.CanRealign` | integrations/slime_agent_kernel/sample_builder.py:181-186 | true exactly when the prompt agrees up to the last response and the new output is below the threshold |
| `SampleBuilder.Builder.Append` | integrations/slime_agent_kernel/sample_builder.py:103-119 | succeeds exactly on acceptable turns; afterwards the tokens are that turn's prompt plus output and the arrays are those of the longer segment; refused turns change nothing |
| `SampleBuilder.Builder.AlignToPrompt` | integrations/slime_agent_kernel/sample_builder.py:107-113 | tokens become the prompt and both arrays the old ones, cut or zero-extended to it |
| `SampleBuilder.Builder.AppendPromptTail` | integrations/slime_agent_kernel/sample_builder.py:176-179 | extends all three arrays, untrained |
| `SampleBuilder.Builder.RealignToPrompt` | integrations/slime_agent_kernel/sample_builder.py:188-195 | replaces everything from the last response on by the rest of the prompt, untrained |
| `SampleBuilder.Builder.HasTrainableResponse` | integrations/slime_agent_kernel/sample_builder.py:121-123 | true exactly when some mask after the leading prompt is non-zero |
| `SampleBuilder.Builder.ToSample` | integrations/slime_agent_kernel/sample_builder.py:125-174 | succeeds exactly on a trainable segment whose log-probabilities fit; the sample carries its turns as stated above, under the given fork index and count |
| `SampleBuilder.AddTurn` | integrations/slime_agent_kernel/sample_builder.py:43-50 | one pass of the loop: append, or keep the finished builder if trainable and fork; appending never fails here |
| `SampleBuilder.CollectBuilders` | integrations/slime_agent_kernel/sample_builder.py:39-52 | succeeds exactly when all captures validate, with one builder per trainable segment of the split, in order |
| `SampleBuilder.EmitSamples` | integrations/slime_agent_kernel/sample_builder.py:54-65 | one sample per segment, each carrying the turns of its own, or an error exactly when some segment's log-probabilities do not fit |
| `SampleBuilder.BuildSamples` | integrations/slime_agent_kernel/sample_builder.py:27-68 | exact success condition; the samples carry the trainable segments in order, with their position and number as fork index and count, their rewards sum to the raw reward, and with required log-probabilities only an untrainable rollout fails |
| `DurableCache.NoResurrection` | packages/dashboard/src/durable-session-cache.ts:72-142 | over every interleaving, once queued mutations are through, a stored view was written by a set or patch after every clear and every delete of its session (made after the cache was first enabled) |
| `DurableCache.NoResurrectionInMemory` | packages/dashboard/src/durable-session-cache.ts:185-206 | the same of every view in memory at any time, so hydrate never installs a dead one |
| `DurableCache.DeleteSticksIff` | packages/dashboard/src/durable-session-cache.ts:160-206 | of any reachable state: no continuation of the run brings an older view of the deleted session back into memory, if and only if the cache was enabled before the delete, or the store holds no well-formed view of the session, or a clear is still queued |
| `DurableCache.EarlyDeleteRevives` | packages/dashboard/src/durable-session-cache.ts:160-206 | the run that brings the view back otherwise: enable, hydrate |
| `DurableFreshness.HydrateOutdatedIff` | packages/dashboard/src/durable-session-cache.ts:185-206 | over every run through the read of a hydrate to its end: the view it brings into memory is what the store held at the read, no set or patch of the session took place since, and it is outdated if and only if at the read the store did not hold what the latest set or patch had written |
| `DurableFreshness.HydrateSeesNoWrite` | packages/dashboard/src/durable-session-cache.ts:185-206 | nor did any take place since the call of the hydrate |
| `DurableFreshness.FenceHolds` | packages/dashboard/src/durable-session-cache.ts:64-67 | over any stretch of a run, a session whose generation stands still has seen no set or patch; generations never fall |
| `DurableFreshness.HydrateCancelsIff` | packages/dashboard/src/durable-session-cache.ts:94-135 | in any reachable state, a hydrate that brings a view back cancels the live write of the session if there is one, no other, and schedules one of that view |
| `DurableFreshness.RunListed` | packages/dashboard/src/durable-session-cache.ts:94-135 | in every reachable state the pending writes are those neither ended nor cancelled, at most one a session |
| `DurableFreshness.HydrateLosesUpdate` | packages/dashboard/src/durable-session-cache.ts:94-135 | a run in which an update is lost so: set, evicted from memory, hydrated before the background write, which is then cancelled |
| `DurableStored.LatestStoredIff` | packages/dashboard/src/durable-session-cache.ts:94-135 | over every interleaving: a set or patch is kept while the cache is on and its session is then left alone (no call on it, clear, shutdown, eviction or hydrate of an older view); once its write has ended, the store holds it if and only if the write did not find a newer cursor there |
| `DurableStored.RunWatch` | packages/dashboard/src/durable-session-cache.ts:94-135 | all along such a run the write stays current, every other write of the session is outdated or writes the same view again, and the store holds an older view or none until the write has ended and the written one from then on, unless a newer cursor stood in its way |
| `DurableStored.RefusedNeverStored` | packages/dashboard/src/durable-session-cache.ts:148-153 | a set or patch whose view memory refuses is never held, written or stored, in any continuation |
| `DurableStored.HydrateUndoesWrite` | packages/dashboard/src/durable-session-cache.ts:94-135 | a run in which the write of a set reaches the store and the write of an outdated view brought back by a hydrate, with an equal cursor, then replaces it |
| `DurableClosed.ClosedForGood` | packages/dashboard/src/durable-session-cache.ts:227-231 | over every run that goes on after a close: no call is made, memory stays as it was, no write is added or live, none gets further unless it ends, no ticket matches again, and every stored view was stored at the close or is that of the put issued then |
| `DurableClosed.ClosedPuts` | packages/dashboard/src/durable-session-cache.ts:105-130 | after a close no put takes place but the one that had been issued |
| `DurableMemory.ReadsWrite` | packages/dashboard/src/durable-session-cache.ts:148-159 | a kept set or patch is read back from memory after any further steps, turning off and closing included, until its session is written, deleted, cleared or evicted |
| `DurableMemory.WriteLeaves` | packages/dashboard/src/durable-session-cache.ts:148-159 | exactly what a set or patch leaves in memory: its view if it was kept, nothing of its session if it was refused, and the other views that were not evicted |
| `DurableMemory.OffNeverStored` | packages/dashboard/src/durable-session-cache.ts:94-95 | a view set while the cache is off, or refused by memory, is never stored nor written nor read back, whatever follows |
| `DurableMemory.MalformedEvicted` | packages/dashboard/src/durable-session-cache.ts:196-200 | a hydrate that reads a malformed view installs nothing and, if it is still current, asks for its removal |
| `DurableMemory.EvictionServed` | packages/dashboard/src/durable-session-cache.ts:196-200 | over every run an eviction asked for waits in the transaction queue until it has removed its session |
| `DurableFreshness.RunNoLater` | packages/dashboard/src/durable-session-cache.ts:148-159 | no view anywhere is younger than the latest set or patch of its session |
| `DurableCache.NextInv` | packages/dashboard/src/durable-session-cache.ts:94-206 | every step of every operation keeps the invariant: what is current is neither dead nor about to be removed |
| `DurableCache.RunInv` | packages/dashboard/src/durable-session-cache.ts:41-240 | the invariant in every reachable state |
| `DurableCache.RunProvenance` | packages/dashboard/src/durable-session-cache.ts:148-159 | every view anywhere in the cache was written by the set or patch call its birth names, or was stored before the run |
| `DurableCache.RunEverEnabled` | packages/dashboard/src/durable-session-cache.ts:220-226 | the bookkeeping of the first enabling is what a caller can read off the calls |
| `DurableCache.KillRecorded` | packages/dashboard/src/durable-session-cache.ts:160-174 | no later step forgets a clear or an honoured delete |
| `DurableCache.MutationRemovesOlder` | packages/dashboard/src/durable-session-cache.ts:72-92 | a delete or clear transaction removes only views written before it was requested |
| `DurableCache.DisabledStoreEmpty` | packages/dashboard/src/durable-session-cache.ts:220-226 | after disabling, once the mutations are through, the durable store is empty |
| `DurableCache.ReadFresh` | packages/dashboard/src/durable-session-cache.ts:185-200 | a hydration whose generations still match reads no dead view |
| `Projection.ReplicaRun` | packages/dashboard/src/session-projection.ts:80-169 | after any duplicated, reordered or lossy run of truthful messages the local state is step folded over the Host log up to the local cursor, and the timeline lists Host entries in order |
| `Projection.ReplicaStep` | packages/dashboard/src/session-projection.ts:89-169 | each single message keeps that |
| `Projection.CursorRun` | packages/dashboard/src/session-projection.ts:133-159 | between baselines the local cursor is exactly what a counter over the messages predicts, within the Host log, and neither cursor ever decreases |
| `Projection.CursorStep` | packages/dashboard/src/session-projection.ts:133-159 | the same for one message |
| `Projection.CatchesUp` | packages/dashboard/src/session-projection.ts:147-159 | if some missing events arrive in order, interleaved with any other truthful messages, the replica reaches them, and if all of them do, it is in the latest state of the Host |
| `Projection.CursorCounts` | packages/dashboard/src/session-projection.ts:151-154 | a step that advances the cursor by one makes the folded cursor the number of events |
| `ProjectionRuns.TimelineGrows` | packages/dashboard/src/session-projection.ts:133-160 | over every run between baselines without a reset, the timeline is what it was merged with all entries delivered, its sequence numbers the union of theirs |
| `ProjectionRuns.TimelineAfterReset` | packages/dashboard/src/session-projection.ts:133-166 | after a history reply that resets, or a timeline reset, the timeline is that reply's first entries or nothing, merged with all entries delivered since, whatever it was before |
| `ProjectionRuns.FirstOfEach` | packages/dashboard/src/session-projection.ts:202-209 | such a reply leaves exactly the first entry of each of its sequence numbers, in order |
| `ProjectionRuns.FieldLatest` | packages/dashboard/src/session-projection.ts:133-166 | queue, model, status, compaction, last error and history marker hold what the last message that decides them gave them |
| `ProjectionRuns.FieldKept` | packages/dashboard/src/session-projection.ts:133-166 | and without such a message they stay |
| `ProjectionRuns.MovedLatest` | packages/dashboard/src/session-projection.ts:141-160 | state and context snapshot are those of the last message that moved the state on (a state that is not older, or the next event), and the turn start that of the last accepted message that told one |
| `ProjectionRuns.MovedStays` | packages/dashboard/src/session-projection.ts:141-160 | and without such a message they stay, as do the fields that only a baseline sets |
| `ProjectionRuns.ReadyDecides` | packages/dashboard/src/session-projection.ts:106-122 | a ready message decides every field from the Host's but timeline, queued messages and history marker, which it leaves |
| `ProjectionRuns.ViewTaken` | packages/dashboard/src/session-projection.ts:92-105 | a cached view, selected or hydrated, is taken over whole, but the session still waits for its connection and is not hydrated |
| `ProjectionRuns.SelectedBlank` | packages/dashboard/src/session-projection.ts:92-100 | a selection without a cached view starts from nothing |
| `ProjectionRuns.HydratedByReady` | packages/dashboard/src/session-projection.ts:180-187 | a session counts as hydrated only since a ready message that no later selection or hydration has followed |
| `Projection.MergeTrue` | packages/dashboard/src/session-projection.ts:211-226 | merging true entries into a true timeline gives a true, ordered timeline |
| `Projection.ReduceBatch` | packages/dashboard/src/session-projection.ts:80-87 | the batch loop is the left fold of the reducer |
| `Timeline.FastIsSlow` | packages/dashboard/src/session-projection.ts:211-226 | on a strictly increasing timeline the append fast path gives what map-and-sort gives |
| `Timeline.MergeUnion` | packages/dashboard/src/session-projection.ts:211-226 | the result is strictly increasing with exactly the union of the sequence numbers |
| `Timeline.MergeIdempotent` | packages/dashboard/src/session-projection.ts:211-226 | replaying any batch, even one with conflicting or duplicate entries, changes nothing |
| `Timeline.MergeGrouping` | packages/dashboard/src/session-projection.ts:211-226 | merging two batches one after the other equals merging them at once |
| `Timeline.MergeSlot` | packages/dashboard/src/session-projection.ts:211-244 | what a merge leaves under a taken sequence number: entries for another event change nothing there, the last one for the same event counts, and each optional field comes from the last one that has it |
| `Timeline.MergeConverges` | packages/dashboard/src/session-projection.ts:211-243 | for truthful views of Host entries the timeline is determined by the set of delivered views alone |
| `Timeline.MergeOrderIndependent` | packages/dashboard/src/session-projection.ts:211-243 | two deliveries of the same views, in any order, grouping and duplication, end in the same timeline |
| `Timeline.SortedUnique` | packages/dashboard/src/session-projection.ts:225 | sorting by sequence number is the only strictly increasing arrangement of the entries |
| `Timeline.FirstWinsExact` | packages/dashboard/src/session-projection.ts:202-209 | an authoritative replay keeps, for each sequence number, exactly its first entry |
| `Timeline.IsStrictlyIncreasingAfter` | packages/dashboard/src/session-projection.ts:228-235 | the loop decides strict increase above the given number |
| `Timeline.MergeBySeqLoop` | packages/dashboard/src/session-projection.ts:211-226 | the loops compute the merge function |
| `Timeline.AuthoritativeTimelineLoop` | packages/dashboard/src/session-projection.ts:202-209 | the loop computes the first-wins timeline |
| `Coalescing.RunCoalesced` | packages/dashboard/src/session.ts:439-731 | any run of messages, hydrated views and unflushed errors included, and frames, followed by a flush, shows the projection that dispatching every message at once would show, a hydrated view ahead of the events that wait when it comes, except that its last error is missing exactly if that error was dispatched without a flush while a live append waited in the buffer |
| `Coalescing.InWireOrder` | packages/dashboard/src/session.ts:439-445 | unless a hydrated view that is taken over meets events that wait, that order is the order in which the messages came |
| `Coalescing.HydrateDiscards` | packages/dashboard/src/session-projection.ts:104-105 | in the order of the wire such a view would undo every event that waits |
| `Coalescing.MeaningMakes` | packages/dashboard/src/session.ts:439-731 | what each message, dispatched at once, makes of the projection of its session |
| `Coalescing.ProjectionQueue.DispatchHydrated` | packages/dashboard/src/session.ts:439-445 | the view counts before the events that wait, and any lost error is overwritten |
| `Coalescing.ProjectionQueue.TakeReady` | packages/dashboard/src/session.ts:533-588 | a ready message flushes, is dispatched with its history reset, and closes the door to hydrated views |
| `Coalescing.BypassQueue` | packages/dashboard/src/session.ts:683-731 | model, status and compact events may overtake the whole buffer |
| `Coalescing.BypassCommutes` | packages/dashboard/src/session-projection.ts:133-166 | each of them commutes with each buffered event |
| `Coalescing.BypassWrites` | packages/dashboard/src/session-projection.ts:162-166 | a bypassing event writes only model, status, compaction and history marker |
| `Coalescing.BufferedKeepsSide` | packages/dashboard/src/session-projection.ts:133-159 | a buffered event neither reads nor writes them |
| `Coalescing.ErrorBypassIff` | packages/dashboard/src/session.ts:504 | an error dispatched without a flush agrees with immediate dispatch if and only if no live append waits in the buffer |
| `Coalescing.ErrorThenQueue` | packages/dashboard/src/session-projection.ts:147-161 | what exactly an error followed by the buffered events leaves |
| `Coalescing.ProjectionQueue.Flush` | packages/dashboard/src/session.ts:259-266 | empties the queue; the shown projection is then the direct one, but for a lost error |
| `Coalescing.ProjectionQueue.Enqueue` | packages/dashboard/src/session.ts:267-275 | buffers an event and keeps shown plus buffered equal to the direct projection |
| `Coalescing.ProjectionQueue.Dispatch` | packages/dashboard/src/session.ts:533-731 | sound on an empty buffer or for a bypassing event |
| `Coalescing.ProjectionQueue.DispatchError` | packages/dashboard/src/session.ts:504 | an error dispatched without a flush is lost exactly if a live append waits |
| `Coalescing.ProjectionQueue.Handle` | packages/dashboard/src/session.ts:439-731 | every handler adds exactly the events its message means, in the order stated, and dispatches or buffers them; what is pending and lost follows from the messages |
| `Minimize.MinimizeFailure` | packages/eval-analyzer/src/minimize.ts:12-48 | for every oracle, also a flaky one: exact failure conditions, else a non-empty subsequence that passed a vote of this very run and whose single deletions each failed one, within Budget(n) votes and repetitions times as many attempts; for a deterministic oracle it still fails, is 1-minimal and the final pass removed nothing |
| `Minimize.Preserves` | packages/eval-analyzer/src/minimize.ts:18-27 | the early-exit vote equals the full vote and stops as soon as the outcome is settled |
| `Minimize.Ask` | packages/eval-analyzer/src/minimize.ts:18-27 | a vote is entered in the list of votes, which accounts for every attempt exactly once |
| `Minimize.TryChunks` | packages/eval-analyzer/src/minimize.ts:32-38 | one round over the chunks: at most granularity votes, a reduction is a cut that passed, and at the finest granularity no reduction means 1-minimal |
| `Minimize.Ddmin` | packages/eval-analyzer/src/minimize.ts:29-42 | the loop terminates with a 1-minimal subsequence within the vote budget |
| `Minimize.FinalPass` | packages/eval-analyzer/src/minimize.ts:43-46 | the deletion pass keeps all that; for a deterministic oracle it changes nothing |
| `Minimize.CastCost` | packages/eval-analyzer/src/minimize.ts:17-27 | the attempts of a run are at most repetitions times its votes |
| `Minimize.BudgetQuadratic` | packages/eval-analyzer/src/minimize.ts:18-46 | Budget(n) = (3n(n+1) - 2) / 2, which is at most 4n^2 + 1 |
| `Minimize.ChunkBounds` | packages/eval-analyzer/src/minimize.ts:32 | a chunk is never empty, granularity chunks cover the list, and enough remains for the next granularity |
| `Minimize.DeterministicVote` | packages/eval-analyzer/src/minimize.ts:18-27 | for a deterministic oracle every vote is its answer |
| `Minimize.VotedDeterministic` | packages/eval-analyzer/src/minimize.ts:18-27 | candidates that some vote of the run accepted or refuted are those the deterministic oracle accepts or refutes |
| `Minimize.CutSubsequence` | packages/eval-analyzer/src/minimize.ts:35 | cutting a chunk keeps a subsequence of the original |
| `ConnectionManager.RunManager` | packages/dashboard/src/dashboard-connection-manager.ts:13-236 | over every run of calls, acknowledgements, timers, disconnects and reconnects, state by state: each state follows from the call; on a live connection the emitted messages replayed in order give exactly the channels held; refs counts the acquisitions of the run not yet released; what nobody holds is a warm session; warm sessions never exceed the cap |
| `ConnectionManager.CursorsNeverFall` | packages/dashboard/src/dashboard-connection-manager.ts:80-83 | over every run the cursor of a live record never falls |
| `ConnectionManager.ActiveByAck` | packages/dashboard/src/dashboard-connection-manager.ts:216-230 | over every run whose acknowledgements answer sent messages, a channel is active only if an acknowledgement for its latest subscribe generation accepted it, and it has been active on that generation ever since |
| `ConnectionManager.AckAnswers` | packages/dashboard/src/dashboard-connection-manager.ts:153-178 | that acknowledgement came after the subscribe message it answers, which names the channel, and no later message subscribes to it again |
| `ConnectionManager.HeldStays` | packages/dashboard/src/dashboard-connection-manager.ts:30-67 | over every run a channel with an unreleased acquisition is there, with as many references |
| `ConnectionManager.MoveActivates` | packages/dashboard/src/dashboard-connection-manager.ts:216-230 | one call leaves a channel active only if it was active on the same generation or the call is such an acknowledgement |
| `ConnectionManager.MoveLives` | packages/dashboard/src/dashboard-connection-manager.ts:30-230 | one call never lowers the cursor of a record that it does not replace |
| `ConnectionManager.AcquireSends` | packages/dashboard/src/dashboard-connection-manager.ts:29-54 | exactly what acquiring sends: it leaves the room of an expired record; it subscribes to this channel alone if the record is new, desired or rejected; it refreshes this channel, with the baseline awaited under that generation, if a fresh baseline is asked for; otherwise, and without a connection, nothing |
| `ConnectionManager.RefreshSends` | packages/dashboard/src/dashboard-connection-manager.ts:85-91 | exactly what refreshing sends: a refresh of a subscribed record, a subscription of any other, nothing without a connection |
| `ConnectionManager.ConnectSends` | packages/dashboard/src/dashboard-connection-manager.ts:93-100 | exactly what a new connection sends: it leaves each expired room once, and then one restore message names exactly the channels that remain |
| `ConnectionManager.ReleaseSends` | packages/dashboard/src/dashboard-connection-manager.ts:55-66 | exactly what a release sends: it leaves the rooms that go, its own twice if the cap evicted it in this release, and nothing unless it is the last one |
| `ConnectionManager.MessagesFit` | packages/dashboard/src/dashboard-connection-manager.ts:160-213 | over every run: each message was sent by one call and carries, for each channel it names, the cursor its record then has; a record subscribed to waits under its generation without error or baseline, a refreshed one awaits it as baseline; only a new connection restores |
| `ConnectionManager.MoveFields` | packages/dashboard/src/dashboard-connection-manager.ts:29-231 | of a record that survives a call: cursors come from callers and answers and become the larger one, errors from rejections and timeouts until the next request, baselines are awaited from a refresh until the next subscription or disconnect |
| `ConnectionManager.MoveState` | packages/dashboard/src/dashboard-connection-manager.ts:160-231 | and its state and generation change exactly by subscription, acknowledgement, rejection, timeout and disconnect |
| `ConnectionManager.MoveLease` | packages/dashboard/src/dashboard-connection-manager.ts:29-147 | and it is last used when acquired and when its last holder goes, from when it is warm for the warmth set |
| `ConnectionManager.MoveFresh` | packages/dashboard/src/dashboard-connection-manager.ts:50-53 | a record that a call puts there anew has one holder, the cursor given, and nothing from before |
| `ConnectionManager.MoveDrops` | packages/dashboard/src/dashboard-connection-manager.ts:93-147 | exactly which channels a call other than a release drops: a new connection and a timer those that nobody holds and whose time is up, a new warmth the warm ones that it leaves no time, no other call any |
| `ConnectionManager.ReleaseDrops` | packages/dashboard/src/dashboard-connection-manager.ts:55-66 | which channels a release drops: its own after the last holder unless it is a session, not rejected, to be kept, and there is warmth and place, in which case it stays if it is used last; otherwise only warm ones |
| `ConnectionManager.Serve` | packages/dashboard/src/dashboard-connection-manager.ts:13-236 | what one call does to the channels, the leases and the log |
| `ConnectionManager.Manager.constructor` | packages/dashboard/src/dashboard-connection-manager.ts:18-28 | starts with nothing held and all invariants |
| `ConnectionManager.Manager.Acquire` | packages/dashboard/src/dashboard-connection-manager.ts:30-55 | joins a live record or starts one; its cursor never falls, it never becomes active by this, and no other channel changes |
| `ConnectionManager.Manager.AcquireRecord` | packages/dashboard/src/dashboard-connection-manager.ts:37-53 | the same for the part after the expiry check |
| `ConnectionManager.Manager.JoinRecord` | packages/dashboard/src/dashboard-connection-manager.ts:37-49 | one holder more: a desired or rejected record is subscribed to again, any other refreshed if a fresh baseline is asked for, with the messages for exactly that |
| `ConnectionManager.Manager.Release` | packages/dashboard/src/dashboard-connection-manager.ts:55-66 | twice does nothing; a held channel only loses one holder; the last release keeps the channel only if it may stay warm, and does keep it when it is the most recently used; only least recently used warm sessions are evicted |
| `ConnectionManager.Manager.MarkReleased` | packages/dashboard/src/dashboard-connection-manager.ts:56-60 | one holder fewer, of this channel only |
| `ConnectionManager.Manager.LastRelease` | packages/dashboard/src/dashboard-connection-manager.ts:61-65 | warm or gone, with the same conditions |
| `ConnectionManager.Manager.RetainWarm` | packages/dashboard/src/dashboard-connection-manager.ts:124-145 | kept exactly when warmth and cap allow and the cap did not evict it; evicts least recently used first |
| `ConnectionManager.Manager.EvictAboveCap` | packages/dashboard/src/dashboard-connection-manager.ts:140-143 | evicts warm sessions oldest first and only down to the cap |
| `ConnectionManager.Manager.Emit` | packages/dashboard/src/dashboard-connection-manager.ts:153-178 | a message with the next generation is logged |
| `ConnectionManager.Manager.Remove` | packages/dashboard/src/dashboard-connection-manager.ts:147-151 | drops the record and, when connected, leaves the room |
| `ConnectionManager.Manager.SubscribeChannels` | packages/dashboard/src/dashboard-connection-manager.ts:153-160 | a new generation for exactly these records, and their rooms joined |
| `ConnectionManager.Manager.RefreshBaseline` | packages/dashboard/src/dashboard-connection-manager.ts:180-186 | a new baseline generation, membership untouched |
| `ConnectionManager.Manager.RefreshChannel` | packages/dashboard/src/dashboard-connection-manager.ts:87-93 | a baseline refresh or a new subscription of this record only |
| `ConnectionManager.Manager.SetCursor` | packages/dashboard/src/dashboard-connection-manager.ts:80-83 | the cursor moves forward only |
| `ConnectionManager.Manager.Disconnect` | packages/dashboard/src/dashboard-connection-manager.ts:22-27 | every record becomes desired again; nothing is lost |
| `ConnectionManager.Manager.Connect` | packages/dashboard/src/dashboard-connection-manager.ts:95-102 | drops exactly the expired records, keeps every held one, and subscribes to all |
| `ConnectionManager.Manager.Restore` | packages/dashboard/src/dashboard-connection-manager.ts:95-102 | the surviving records carry one new generation |
| `ConnectionManager.Manager.DropExpired` | packages/dashboard/src/dashboard-connection-manager.ts:96-99 | removes exactly the expired records and leaves their rooms |
| `ConnectionManager.Manager.UpdateWarmth` | packages/dashboard/src/dashboard-connection-manager.ts:105-122 | drops exactly the warm records that lapse under the new setting and recomputes the others |
| `ConnectionManager.Manager.Rewarm` | packages/dashboard/src/dashboard-connection-manager.ts:107-121 | one record of that loop |
| `ConnectionManager.Manager.Expire` | packages/dashboard/src/dashboard-connection-manager.ts:129-138 | an expiry timer removes its channel only if it is still warm and expired |
| `ConnectionManager.Manager.ApplyAck` | packages/dashboard/src/dashboard-connection-manager.ts:216-230 | exactly the records of this generation change |
| `ConnectionManager.Manager.BaselineAck` | packages/dashboard/src/dashboard-connection-manager.ts:197-213 | exactly the records waiting for this baseline change, in cursor and error only |
| `ConnectionManager.Manager.SubscribeTimeout` | packages/dashboard/src/dashboard-connection-manager.ts:162-171 | exactly the records still at this generation go back to desired |
| `Journal.RunLinear` | packages/eval-orchestrator/src/journal.ts:49-66 | over any run of self-hashed attempts by many writers the log verifies, only grows, and is what the file reads back as |
| `Journal.RunDisk` | packages/eval-orchestrator/src/journal.ts:20-66 | over any run of appends, reads and crashes by many writers, wherever the crashes fall: what readAll returns, or that it fails |
| `Journal.RunGrowsIff` | packages/eval-orchestrator/src/journal.ts:20-66 | over any such run the journal stays readable and never loses a record that it returned, if and only if no append writes behind a record that a crash left without its newline |
| `Journal.SecondCrashLoses` | packages/eval-orchestrator/src/journal.ts:28-34 | two crashes, before a newline and inside the next record, after which a record already returned is gone |
| `Journal.MeansStep` | packages/eval-orchestrator/src/journal.ts:20-66 | the same of one event |
| `Journal.RunWithCrashes` | packages/eval-orchestrator/src/journal.ts:20-66 | in particular, if no crash falls exactly between a record and its newline, the journal stays readable and reads as the committed log, which verifies and only grows |
| `Journal.OneWinner` | packages/eval-orchestrator/src/journal.ts:54-56 | two transactions prepared for the same position never both commit |
| `Journal.HeadPinsLog` | packages/eval-orchestrator/src/journal.ts:38-45 | under a collision-free digest two verified logs of equal length and head hash are identical |
| `Journal.TornRecovers` | packages/eval-orchestrator/src/journal.ts:20-47 | a proper prefix of a record after a valid log: readAll returns the earlier log and truncates to it |
| `Journal.AppendAfterTorn` | packages/eval-orchestrator/src/journal.ts:49-62 | the next append then commits on top of that log and reads back |
| `Journal.CrashThenAppendIff` | packages/eval-orchestrator/src/journal.ts:28-34 | for every prefix of record plus newline: the journal stays readable after the next append if and only if the prefix is not the whole record without its newline |
| `Journal.GluedUnreadable` | packages/eval-orchestrator/src/journal.ts:29-31 | that failing case: read as committed, not repaired, and ruined by the next append |
| `Journal.GluedReads` | packages/eval-orchestrator/src/journal.ts:29-31 | a record without its newline is read as committed and left as it is |
| `Journal.AppendReadableIff` | packages/eval-orchestrator/src/journal.ts:54-59 | the journal stays readable after an append if and only if the transaction was refused or correctly self-hashed |
| `Journal.AppendRefines` | packages/eval-orchestrator/src/journal.ts:49-62 | append on the file does what committing does on the log |
| `Journal.CommitVerifies` | packages/eval-orchestrator/src/journal.ts:56 | a commit keeps the chain verified exactly if the transaction is self-hashed |
| `Journal.RenderReads` | packages/eval-orchestrator/src/journal.ts:20-47 | a verified log reads back exactly and the file is left alone |
| `Journal.TailReads` | packages/eval-orchestrator/src/journal.ts:26-37 | what is read and what is truncated for any newline-free tail |
| `Journal.BlankIgnored` | packages/eval-orchestrator/src/journal.ts:27-28 | blank lines do not matter, wherever they stand |
| `Journal.RereadStable` | packages/eval-orchestrator/src/journal.ts:20-47 | for any file, reading again returns the same and changes nothing more |
| `Journal.DurableJournal.ReadAll` | packages/eval-orchestrator/src/journal.ts:20-47 | returns the verified log or the error of the first fault, and leaves the repaired file |
| `Journal.DurableJournal.CheckChain` | packages/eval-orchestrator/src/journal.ts:38-46 | accepts exactly the lists with right sequence, links and hashes, and names the first fault otherwise |
| `Journal.DurableJournal.Append` | packages/eval-orchestrator/src/journal.ts:49-66 | commits exactly transactions at the end of what readAll returns |
| `WorkspaceArchive.DeterministicWorkspaceArchive` | packages/eval-analyzer/src/reproduction-bundle.ts:82-116 | succeeds exactly if every path passes the check of line 86, paths are unique and have at most 100 bytes, with the tar bytes of the sorted units; otherwise reports the first problem in sorted order |
| `ArchivePaths.AllowedIff` | packages/eval-analyzer/src/reproduction-bundle.ts:86 | the check by segments: no NUL, not empty, no leading slash, and no ".." but possibly as the last of several segments |
| `ArchivePaths.InsideIff` | packages/eval-analyzer/src/reproduction-bundle.ts:86 | an allowed path stays inside the directory it is relative to, if and only if its last segment is not ".." or some earlier one is a name |
| `ArchivePaths.DotUpIsAllowed` | packages/eval-analyzer/src/reproduction-bundle.ts:86 | the shortest allowed path that does not |
| `WorkspaceArchive.ArchiveReads` | packages/eval-analyzer/src/reproduction-bundle.ts:82-116 | a checksum-verifying ustar reader recovers exactly the sorted units; whole 512-byte blocks; two zero blocks at the end |
| `WorkspaceArchive.ArchiveOrderIff` | packages/eval-analyzer/src/reproduction-bundle.ts:85 | the archive is the same for every order of the units if and only if no two different units compare equal |
| `WorkspaceArchive.SortOrderIff` | packages/eval-analyzer/src/reproduction-bundle.ts:85 | the same of the sorted list |
| `WorkspaceArchive.SortSorted` | packages/eval-analyzer/src/reproduction-bundle.ts:85 | the sort is ordered and a permutation |
| `WorkspaceArchive.SortStable` | packages/eval-analyzer/src/reproduction-bundle.ts:85 | units that compare equal keep their order |
| `WorkspaceArchive.TieShows` | packages/eval-analyzer/src/reproduction-bundle.ts:85 | exchanging two different units that compare equal changes the result |
| `WorkspaceArchive.AcceptableIff` | packages/eval-analyzer/src/reproduction-bundle.ts:86-90 | a list is acceptable exactly when no unit has a problem given those before it |
| `WorkspaceArchive.AcceptablePermutes` | packages/eval-analyzer/src/reproduction-bundle.ts:86-90 | whether it is acceptable does not depend on its order |
| `WorkspaceArchive.WriteHeader` | packages/eval-analyzer/src/reproduction-bundle.ts:92-105 | the header filled in place is the specified one, checksum included |
| `WorkspaceArchive.WriteFront` | packages/eval-analyzer/src/reproduction-bundle.ts:92-98 | the fields before the checksum |
| `WorkspaceArchive.WriteBack` | packages/eval-analyzer/src/reproduction-bundle.ts:99-102 | checksum field as spaces, type, magic and version |
| `WorkspaceArchive.WriteChecksum` | packages/eval-analyzer/src/reproduction-bundle.ts:104-105 | digits, NUL and space over the spaces, nothing else |
| `WorkspaceArchive.Reduce` | packages/eval-analyzer/src/reproduction-bundle.ts:103 | the byte sum |
| `WorkspaceArchive.Octal` | packages/eval-analyzer/src/reproduction-bundle.ts:117-120 | padded octal and a NUL at the offset, nothing else |
| `WorkspaceArchive.SetBytes` | packages/eval-analyzer/src/reproduction-bundle.ts:119 | overwrites exactly the given range |
| `WorkspaceArchive.PushUnit` | packages/eval-analyzer/src/reproduction-bundle.ts:91-108 | header, body and padding of one unit |
| `WorkspaceArchive.Join` | packages/eval-analyzer/src/reproduction-bundle.ts:111-114 | the buffer is the concatenation of the chunks |
| `Ustar.RoundTrip` | packages/eval-analyzer/src/reproduction-bundle.ts:82-116 | reading the archive of any fitting files gives exactly these files |
| `Ustar.HeaderReads` | packages/eval-analyzer/src/reproduction-bundle.ts:92-105 | a written header passes magic, version, type and checksum checks and gives back name and size |
| `Ustar.TarLength` | packages/eval-analyzer/src/reproduction-bundle.ts:107-112 | whole blocks, ending in two zero blocks |
| `Ustar.TarInjective` | packages/eval-analyzer/src/reproduction-bundle.ts:82-116 | different lists of files have different archives |
| `StreamBuffer.RunStream` | packages/dashboard/src/session.ts:298-425 | over every run, whatever frames, clocks and visibility changes come between the messages: shown text followed by pending and buffered text is the received text the messages alone decide, and so are the retained drafts |
| `StreamHost.RepeatsIff` | packages/dashboard/src/session.ts:541-554 | over every run with a truthful Host, deltas lost or not: the retained drafts and the current text never show a character twice if and only if no ready message brings a snapshot of a draft of which the client already has something |
| `StreamHost.StepRepeatsIff` | packages/dashboard/src/session.ts:541-554 | the same of one step, which also keeps everything shown within what the Host has streamed |
| `StreamHost.ReconnectRepeats` | packages/dashboard/src/session.ts:541-554 | the run that shows it: after a reconnect in the middle of a draft the client shows character 0 as a retained draft and 0, 1 as its current text |
| `StreamHost.OldTextIsPrefix` | packages/dashboard/src/session.ts:541-554 | in such a reconnect the old text is retained and is a prefix of the new current text |
| `StreamHost.ReadyCatchesUp` | packages/dashboard/src/session.ts:545-553 | a ready message of a thinking Host makes the current text the whole current draft, whatever deltas were missed |
| `StreamHost.DeltasFollow` | packages/dashboard/src/session.ts:354-362 | from then on each delta keeps it the whole draft |
| `StreamHost.RunSpells` | packages/dashboard/src/session.ts:298-419 | the stream never looks at the characters, so what holds of numbered characters holds of the text |
| `StreamBuffer.RunLedger` | packages/dashboard/src/session.ts:298-419 | over every run of messages, ended segments followed by the current text are exactly the deltas let in and the snapshots taken over since the last clear, in order, and the retained drafts are exactly the segments no persisted text replaced |
| `StreamBuffer.StepLedger` | packages/dashboard/src/session.ts:533-684 | each message adds exactly the text it brings |
| `StreamDrafts.DraftFate` | packages/dashboard/src/session.ts:390-425 | over every run: text that a ready message, a user message or an entry into thinking ends is in the retained drafts at the end, in its place, with exactly what was brought since it began and the anchor of its first delta or snapshot; text that a response with text, or assistant text past its anchor, ends is added to none |
| `StreamDrafts.DraftsCome` | packages/dashboard/src/session.ts:416-425 | the converse: every retained draft is text that some message kept so, under its anchor |
| `StreamDrafts.DraftsGrow` | packages/dashboard/src/session.ts:416-425 | without a clear drafts only join at the end, one for each such end |
| `StreamDrafts.DraftLives` | packages/dashboard/src/session.ts:352-362 | while it lives, streamed text is what the messages brought since it began, under the anchor it began with |
| `StreamDrafts.MarksRun` | packages/dashboard/src/session.ts:533-690 | position, status and acceptance of deltas are read off the messages |
| `StreamBuffer.Stream.CommitPending` | packages/dashboard/src/session.ts:298-304 | the pending text moves to the screen |
| `StreamBuffer.Stream.Release` | packages/dashboard/src/session.ts:320-324 | moves characters from buffer to pending commit without changing their sum |
| `StreamBuffer.Stream.DrainSmooth` | packages/dashboard/src/session.ts:306-332 | a smooth frame keeps shown plus pending plus buffer equal to the received text, shows nothing on a hidden page, ends only when all is shown, and advances on every frame of at least 1/120 s |
| `StreamBuffer.Stream.DrainBatched` | packages/dashboard/src/session.ts:334-347 | a batched frame does the same and releases at least a tenth |
| `StreamBuffer.Stream.HandleVisibilityChange` | packages/dashboard/src/session.ts:369-379 | coming back shows all released text once; the frame it would schedule is always scheduled already |
| `StreamBuffer.Stream.PushStreamDelta` | packages/dashboard/src/session.ts:354-367 | the delta is appended once and a frame is due |
| `StreamBuffer.Stream.ResetStream` | packages/dashboard/src/session.ts:382-396 | drops the current text and nothing else |
| `StreamBuffer.Stream.FinishStream` | packages/dashboard/src/session.ts:403-412 | everything received is shown, whatever was still hidden |
| `StreamBuffer.Stream.ArchiveStream` | packages/dashboard/src/session.ts:413-419 | the text becomes the last retained draft, under its anchor |
| `StreamBuffer.Stream.UpdateStreamStatus` | packages/dashboard/src/session.ts:420-425 | archives on entering thinking, finishes on leaving it, accepts deltas only while thinking |
| `StreamBuffer.Stream.Handle` | packages/dashboard/src/session.ts:533-726 | the buffers follow the message semantics whatever frames and visibility changes happen between; unless deltas are accepted, all text is shown |
| `StreamBuffer.Stream.OnReady` | packages/dashboard/src/session.ts:533-554 | archive, new position and status, then the Host's draft replaces the empty tail |
| `StreamBuffer.Stream.OnStateChanged` | packages/dashboard/src/session.ts:599-616 | persisted assistant text replaces the draft |
| `StreamBuffer.Stream.OnAppended` | packages/dashboard/src/session.ts:627-648 | clear, user message and response handling |
| `StreamBuffer.ReleaseFits` | packages/dashboard/src/features/chat/text-reveal/scheduler.ts:11-16 | a frame never releases more than the backlog |
| `StreamBuffer.RevealAdvances` | packages/dashboard/src/features/chat/text-reveal/rate.ts:53-69 | a backlog shrinks on every frame of at least 1/120 s |
| `StreamBuffer.CarryFraction` | packages/dashboard/src/features/chat/text-reveal/rate.ts:53-69 | on a clock that does not run backwards the carry stays a proper fraction |
| `RunEvents.Subscribe` | packages/eval-dashboard/src/client.ts:105-151 | over every run, state by state: delivered numbers are exactly start+1, start+2, and so on; an input delivers exactly if it is the next event on the current source of a running subscription; a subscription stops exactly by the call or by a callback that was made, and then nothing is delivered, requested, announced or open any more; at most one source is open; and it is without a source for good exactly if it is not stopped and the last state callback of a reconnect threw |
| `RunEvents.ErrorStrandsIff` | packages/eval-dashboard/src/client.ts:139-143 | after an error on the current source the retry timer is pending, unless the subscription was stopped or the state callback was asked and threw |
| `RunEvents.EventStrandsIff` | packages/eval-dashboard/src/client.ts:126-138 | an event leaves the subscription without source and timer exactly if it closes the source, no retry is due, and the last state callback asked throws without any callback having stopped it |
| `RunEvents.ThrowingCallbackStrands` | packages/eval-dashboard/src/client.ts:113-143 | a run that does so: the first source fails, the callback throws, time passes |
| `RunEvents.StrandedStays` | packages/eval-dashboard/src/client.ts:113-143 | such a subscription stays so until it is stopped or announces another reconnect |
| `RunEvents.StepDelivers` | packages/eval-dashboard/src/client.ts:126-138 | a step delivers exactly the next event, once, whatever its handler does, and requests only when a retry is due |
| `RunEvents.StepStops` | packages/eval-dashboard/src/client.ts:113-150 | exactly what stops a subscription |
| `RunEvents.StoppedStays` | packages/eval-dashboard/src/client.ts:113-150 | a stopped subscription does nothing any more |
| `RunEvents.StepOneSource` | packages/eval-dashboard/src/client.ts:113-150 | every step keeps at most the current source open, and none while a retry is due |
| `RunEvents.Subscription.OnDurableEvent` | packages/eval-dashboard/src/client.ts:126-138 | gap, duplicate, malformed event, next event and throwing callbacks, as the step function says |
| `RunEvents.Subscription.Reconnect` | packages/eval-dashboard/src/client.ts:113-117 | nothing once stopped or while a timer is due; otherwise one timer, unless the state callback throws |
| `RunEvents.Subscription.Connect` | packages/eval-dashboard/src/client.ts:118-124 | one new source, asking for what follows the last delivered event |
| `RunEvents.Subscription.RetryTimer` | packages/eval-dashboard/src/client.ts:116 | opens a source unless stopped |
| `RunEvents.Subscription.OnError` | packages/eval-dashboard/src/client.ts:139-143 | closes the current source; errors of others are ignored |
| `RunEvents.Subscription.OnOpen` | packages/eval-dashboard/src/client.ts:125 | reports only the current source of a running subscription |
| `RunEvents.Subscription.Stop` | packages/eval-dashboard/src/client.ts:146-150 | closes the current source and clears a due timer |
| `ViewCache.RunCache` | packages/dashboard/src/session-view-cache.ts:66-155 | over every run of calls: the entries are exactly what the calls leave; the running count is the sum over them and within the last limit set, ids are distinct, and every estimate equals a full recomputation |
| `ViewCache.EvictPolicy` | packages/dashboard/src/session-view-cache.ts:74-89 | what stays fits; nothing evicted is younger than what stays; the youngest evicted entry would not have fitted; nothing is evicted when all fits |
| `ViewCache.EvictKeepsIff` | packages/dashboard/src/session-view-cache.ts:70-89 | exactly which entries stay: those that fit the limit together with all entries evicted after them |
| `ViewCache.PutKeepsIff` | packages/dashboard/src/session-view-cache.ts:91-108 | a put keeps its view exactly if there is such room for it, and likewise each other view |
| `ViewCache.Cache.EnforceLimit` | packages/dashboard/src/session-view-cache.ts:74-89 | the running count stays the true sum and the entries are those the policy keeps |
| `ViewCache.Cache.FindOldest` | packages/dashboard/src/session-view-cache.ts:81-84 | the first entry with the least time |
| `ViewCache.Cache.Put` | packages/dashboard/src/session-view-cache.ts:91-108 | count exact and within the limit, estimate equal to a full recomputation; the view is kept, with the fields and time it was given, exactly if there is room for it |
| `ViewCache.StoredViews` | packages/dashboard/src/session-view-cache.ts:91-108 | after a put the id holds the new view or nothing and every other view was there before |
| `ViewCache.Cache.Get` | packages/dashboard/src/session-view-cache.ts:111-117 | only the time of the view changes |
| `ViewCache.Cache.Apply` | packages/dashboard/src/session-view-cache.ts:131-135 | the patch's fields arrive, the others and the time stay if it brings none, and the result is kept exactly if there is room for it; absent views stay absent |
| `ViewCache.Cache.Delete` | packages/dashboard/src/session-view-cache.ts:136-142 | removes the view and its bytes |
| `ViewCache.Cache.Clear` | packages/dashboard/src/session-view-cache.ts:143-146 | nothing left |
| `ViewCache.Cache.SetMaxBytes` | packages/dashboard/src/session-view-cache.ts:147-150 | the new limit holds at once |
| `ViewCache.Normalize` | packages/dashboard/src/session-view-cache.ts:157-203 | reusing the parts of an exact previous entry for identical state or timeline gives an exact estimate |
| `ViewCache.EnforceDurableLimit` | packages/dashboard/src/durable-session-cache.ts:259-267 | the durable layer keeps what the same policy keeps of the entries in time order |
| `ViewCache.SortedByTime` | packages/dashboard/src/durable-session-cache.ts:260 | time order, and a permutation |

## Left out

- React components and hooks wiring, toasts, service worker, CLI parsing and build configuration: no deep invariant.
- The kernel's `step`, the token estimators and the context reprojection: parameters of the reducer; `step` is only taken to advance the cursor by one.
- DurableCache.RunInv: the closure state is modelled as a value that steps replace, not as a class, because a run interleaves many suspended calls; calls made after `close`, failing database operations and other tabs are not modelled, and limit enforcement may evict any session at any time.
- DurableCache.NoResurrection: speaks of deletes made after the cache was first enabled; `DurableCache.DeleteSticksIff` says which earlier ones are final.
- ConnectionManager.RunManager: error listeners, `waitUntilActive` and the identity of timers are not modelled (a timer may fire at any time); warm sessions used at the same instant are evicted in any order.
- ConnectionManager.Manager.BaselineAck: the baseline timeout, which only sets an error text, is not modelled.
- Projection.ReplicaRun: `timelineEntry` is modelled as the entry it produces; the dropping of empty optional fields is not.
- Journal.RunLinear: the body of `append` is atomic; the writer lock file with its takeover, and `compact`, are not modelled. The file is a character sequence, so UTF-8 lengths are not.
- Journal.DurableJournal.ReadAll: error texts without the line or record number.
- SampleBuilder.Admit: a log-probability field that is a JSON string or object, which Python would iterate, counts as no list.
- SampleBuilder.BuildSamples: loading artifacts, the metadata of a sample other than its fork index and count, and floating-point rounding (rewards are reals) are not modelled.
- Minimize.MinimizeFailure: the oracle answers by attempt number and candidate, so a flaky oracle is any such function; a rejected promise of the oracle is not modelled.
- WorkspaceArchive.DeterministicWorkspaceArchive: paths and contents are their UTF-8 bytes; contents are shorter than 8^11 bytes, which every string of the runtime is; zstd compression is not modelled.
- StreamBuffer.RunLedger: the status an appended event leads to and whether a message holds assistant text are given with the message.
- StreamHost.RepeatsIff: the Host's batching of deltas is not modelled, because it flushes them before a snapshot and before its draft ends; which drafts the transcript hides behind persisted text is not modelled.
- RunEvents.Subscribe: the request URL is its `after` parameter, and a failing event source factory is not modelled.
- ViewCache.Cache.Put: listeners and their notification are not modelled; JSON sizes are functions of the referenced objects, which are not mutated.
- HTTP clients, authentication, evidence archives and schema validation: input/output or shallow branching.

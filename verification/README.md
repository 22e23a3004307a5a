# Verification of the AVA listener runtime

A Dafny model of the wake-phrase runtime and proofs about it. Microphone chunks pass a voice-activity
detector, an audio worker feeds a speech recogniser, a matcher scores the recogniser's hypotheses, the
wake engine decides, and wake events reach a Node client through an acknowledged delivery protocol.
Around that path sit profile loading, model verification and recovery from faults.

`dafny verify dfyconfig.toml` checks everything.

## How the model is built

Each component is one module. A mutable object of the program is a class with the same fields; its
methods follow the program's statements and loops and are proved equal to a function on the object's
abstract value. Whole runs are sequences of events folded over such functions (`Step`, `Run`, `Exec`),
and the main results quantify over every sequence of events.

Such a function follows the code it stands for, so equality with it alone would say little. What it
amounts to is stated apart from it, with the program's numbers and names written out and none of the
decisions left to it: `WakeDecisions.WakesExactlyWhen`, `MatchScores.MatchMeaning`,
`DeliveryEffects.PublishEffect` and the results beside it, `WorkerHistory.ChunksFollowHistory`,
`ProfileOnDisk.MigrationEffect` and `LoadedFromDisk`, `VadFraming.VerdictsAfterRuns`,
`Watchdog.EveryTrigger`, `ModelCache.RetryInstallsFirst`.

| file | component |
|---|---|
| `Delivery.dfy`, `DeliveryRuns.dfy`, `DeliveryHistory.dfy`, `DeliveryEffects.dfy` | WebSocket server queues, client acknowledgements, all interleavings, the fate of messages, what each event does to each kind |
| `AudioWorker.dfy`, `WorkerRuns.dfy`, `WorkerHistory.dfy` | hysteresis, pre-roll, silence timeout, recogniser feeding, all chunk sequences, the worker told from the history of chunks |
| `VadFraming.dfy` | 512-sample segments with 64-sample context, verdicts |
| `HypothesisBuffer.dfy`, `VariantIndex.dfy`, `Matcher.dfy`, `MatchScores.dfy` | hypothesis window, phrase registry and index, scoring, what a match means |
| `LoadRuns.dfy` | profile loads interleaved with matching, under the two locks |
| `WakeEngine.dfy`, `WakeRuns.dfy`, `WakeDecisions.dfy` | wake decision, candidates and telemetry, all hypothesis sequences, when exactly a wake comes |
| `ClosedLoop.dfy` | worker, stream generation and engine together |
| `ProfileMerge.dfy`, `ProfileChain.dfy`, `ProfileFlatten.dfy`, `ProfileOnDisk.dfy` | profile inheritance, migration, merge, flattening, the result against the files on disk |
| `ModelCache.dfy` | checksum cache under concurrent verification, download with retry, all histories |
| `Watchdog.dfy`, `RestartPolicy.dfy` | backoff and escalation, sliding-window throttling |

Floating-point values are `real`. Time is an input that does not decrease, and the clock readings within
one callback are one input unless a method takes two. Foreign code appears as function parameters: the
token-set ratio (range 0 to 1), the anchor gate, string folding and splitting, the Silero graph, the
median, SHA-256 and path resolution. Verdicts of the WebRTC prefilter, chunk energies, recogniser texts
and fetched files are inputs.

## What the code does that its comments do not say

- The worker's docstring says every chunk reaches the recogniser (runtime/audio/worker.py:66). The code
  feeds speech, two padding chunks and the flushed pre-roll only; `WorkerRuns.ChunksFed` says exactly
  which chunks arrive, and `WorkerRuns.SomeChunksAreLost` shows one that never does.
- The test on the trailing pad before a hypothesis is delivered (runtime/audio/worker.py:401) is always
  true, because the pad never exceeds its limit (`WorkerRuns.DeliveryIgnoresPad`).
- In the closed loop the engine's generation gate, called the primary duplicate suppression
  (runtime/kernel/orchestrator.py:390-392), never rejects anything: the stream is reset on every wake
  (`ClosedLoop.GenerationGateNeverRejects`).
- A guaranteed message is retried until acknowledged only while it is in the pending table. Once it has
  been through the offline queue it is sent a single time and forgotten
  (runtime/transport/websocket_server.py:44-48). `DeliveryHistory.GuaranteedFate` says which messages go
  that way, and `DeliveryHistory.WakeIsForgotten` shows a wake that is lost.
- The gaps between retries are gaps between scheduling sends. A send that waits for its socket may end
  together with the next one, so nothing is claimed about the times at which messages arrive.
- Publishing a reliable message under a correlation id that is still pending overwrites the waiting
  message (`DeliveryRuns.PublishConserves` says exactly when nothing is lost,
  `DeliveryHistory.ReusedIdLosesMessage` shows a loss).
- A version 2 profile with unweighted phrases is not given weights (`ProfileChain.MigratedProfile`).
- The phrase priority mode named "longest" ranks by score first and by length only among equal scores
  (runtime/matcher/evaluator.py:196).
- Replacing the last hypothesis by a shorter one can leave neighbours of which one is a prefix of the
  other (`HypothesisBuffer.PushKeepsNeighbours` gives the exact condition).
- Two manifest models under one id can be answered from each other's cache entry, also when the other's
  file is there no more, and can overwrite each other's entry; `ModelCache.AnswersGenuineIff` and
  `ModelCache.EntriesCurrentIff` say for every manifest and every cache exactly when, and
  `ModelCache.StaleHistoryMisleads` shows how an ordinary history gets there.
  Models that share a target file with different hashes make a normal return meaningless
  (`ModelCache.NormalReturnMeansGenuine`).
- A profile with an invalid phrase leaves registry and index as they were, but is reported as the active
  profile from then on (runtime/kernel/orchestrator.py:133-138). `VariantIndex.LoadAgreesIff` says exactly
  when report and registry agree.
- The comment on the index says that the matcher always sees a consistent snapshot
  (runtime/matcher/variants.py:42-44). It reads the index three times, and a load in between can take the
  canonical phrase of the variant it has picked away (`LoadRuns.PickedVariantLosesCanonicalIff`).
- Flattening joins keys by dots. Where a key contains a dot two values can compete for one reported key,
  and one of them is lost (`ProfileFlatten.Flatten`, `ProfileFlatten.AmbiguousLosesValue`).

## Model

| member | source | states |
|---|---|---|
| DeliveryRuns.ExactlyOnePlace | runtime/transport/websocket_server.py:39-61 | in every interleaving of publishing, sending, acknowledging, retrying, connecting and disconnecting, an accepted reliable message is in exactly one of pending table, offline queue, acknowledged, handed over, dropped, and only retry-class messages are dropped |
| DeliveryRuns.AckedWasReceived | node/transport.js:125-153 | a message removed by an acknowledgement had been received by a client; one handed over by an offline flush has been received by the definition of the one-step flush |
| DeliveryRuns.RetryTransmissions | runtime/transport/websocket_server.py:122-150 | a retry-class message is scheduled for sending or handed over at most four times in any run, with gaps of at least 0.1, 0.1 and 0.2 s between the times it is scheduled |
| DeliveryRuns.GuaranteedTransmissions | runtime/transport/websocket_server.py:133-136 | a guaranteed message is never scheduled again within half a second |
| DeliveryRuns.BestEffortInOrder | runtime/transport/websocket_server.py:100-113 | best-effort messages are scheduled once and in order, in non-empty batches of at most ten, the rest waiting in a batch shorter than ten |
| DeliveryRuns.PublishConserves | runtime/transport/websocket_server.py:220-237 | publishing keeps the account of all messages balanced if and only if it does not reuse a pending correlation id with clients connected |
| DeliveryHistory.ReusedIdLosesMessage | runtime/transport/websocket_server.py:220-231 | a second publish under a pending correlation id after which the first message is nowhere |
| DeliveryRuns.RetryConserves | runtime/transport/websocket_server.py:115-150 | a retry pass moves messages between table, offline queue and dropped without losing or duplicating any |
| DeliveryRuns.AckSound | runtime/transport/websocket_server.py:57-61 | what an acknowledgement removes is the very message a client received |
| DeliveryRuns.RetryTimedOnline | runtime/transport/websocket_server.py:122-150 | a pass with clients connected schedules each due message in its slot and the next one by its retry count |
| DeliveryRuns.ConnectTimed | runtime/transport/websocket_server.py:43-48 | the hand-over of queued messages respects the same gaps and the bound of four |
| DeliveryRuns.StepInv | runtime/transport/websocket_server.py:34-37 | every event keeps accounts, identities, acknowledgement soundness, timing and batches in order |
| DeliveryHistory.GuaranteedFate | runtime/transport/websocket_server.py:44-48 | after any run an accepted guaranteed message was handed over if and only if it was queued when a client connected, and was ever queued if and only if it was published or came due while nobody was connected; otherwise it is pending, queued or acknowledged, and if never queued pending or acknowledged |
| DeliveryHistory.HandedIsForgotten | runtime/transport/websocket_server.py:44-48 | once handed over, a message is never scheduled again |
| DeliveryHistory.PendingIsResent | runtime/transport/websocket_server.py:133-136 | a due guaranteed entry is scheduled again by a pass with clients connected and stays in the table |
| DeliveryHistory.WakeIsForgotten | runtime/transport/websocket_server.py:39-48 | a run after which a wake is neither acknowledged nor pending nor queued |
| DeliveryHistory.SendsAreScheduled | runtime/transport/websocket_server.py:170-181 | in every run the sends of a reliable message that have run or are under way, with its hand-over, are as many as its scheduled times, and those of a batch as many as the times it was scheduled |
| DeliveryHistory.RetrySendsRun | runtime/transport/websocket_server.py:122-150 | the sends of a retry-class message that actually run, with its hand-over, are at most four |
| DeliveryHistory.BatchesRunOnce | runtime/transport/websocket_server.py:100-113 | a batch is sent at most as often as it was scheduled |
| DeliveryHistory.QueueHistory | runtime/transport/websocket_server.py:141-147 | for any message: handed over if and only if queued at a connect, and ever queued if and only if something queued it |
| DeliveryEffects.PublishEffect | runtime/transport/websocket_server.py:183-237 | for every kind: a transcript joins the batch and the tenth sends it; anything else published with somebody connected schedules exactly one send of it, with a table entry 0.5 s ahead for wakes and fatal errors and 0.1 s ahead for speech marks and errors; with nobody connected these five kinds are queued and any other is kept nowhere |
| DeliveryEffects.UnackedSends | runtime/transport/websocket_server.py:233-237 | after any run the sends of a message that is neither of the five acknowledged kinds nor a transcript, run or under way, are as many as its publications with somebody connected |
| DeliveryEffects.UnackedShown | node/transport.js:145-153 | while every send reaches somebody, a client emits such a message as often as it was published with somebody connected, less the sends under way |
| DeliveryEffects.RetryEffectOnline | runtime/transport/websocket_server.py:115-150 | with somebody connected a pass sends every due entry again, 0.5 s or 0.1, 0.2 and 0.4 s ahead of the next time, except those of the limited kinds sent three times again already, which are given up; the table keeps its order |
| DeliveryEffects.RetryEffectOffline | runtime/transport/websocket_server.py:138-147 | with nobody connected the due entries leave the table, for the end of the offline queue or for good, and nothing is sent |
| DeliveryEffects.ClientHandles | node/transport.js:125-153 | a client acknowledges exactly single messages of the five kinds with a non-empty id, and emits a message or all messages of a batch in order |
| DeliveryEffects.TransmitEffect | runtime/transport/websocket_server.py:170-181 | what a send that runs does to clients, receipts, acknowledgements and emitted messages |
| DeliveryEffects.ConnectEffect | runtime/transport/websocket_server.py:39-48 | a new client is connected, and the whole queue is emitted once, in order, and cleared |
| DeliveryEffects.FlushSends | runtime/transport/websocket_server.py:44-47 | the flush sends one message for each queued one, in order |
| DeliveryEffects.DisconnectEffect | runtime/transport/websocket_server.py:81-83 | a leaving client changes nothing but the set of clients |
| DeliveryEffects.BatchPassEffect | runtime/transport/websocket_server.py:100-113 | the periodic pass sends the whole batch if there is any |
| DeliveryEffects.AckEffect | runtime/transport/websocket_server.py:57-61 | an acknowledgement takes out exactly the entry with its id, if there is one |
| Delivery.HandleMessage | node/transport.js:125-153 | the client acknowledges reliable messages with a non-empty id and emits the events of a batch one by one in order |
| Delivery.WSServer.BroadcastMessage | runtime/transport/websocket_server.py:183-237 | the new queues and scheduled sends for each reliability class, with and without clients; by kind and in numbers in `DeliveryEffects.PublishEffect` |
| Delivery.AgeEntry | runtime/transport/websocket_server.py:122-136 | the new retry count and time of a due entry, and whether it is given up |
| Delivery.WSServer.ScanDue | runtime/transport/websocket_server.py:118-136 | the scan ages exactly the due entries and collects what to resend and what to drop, in table order |
| Delivery.WSServer.MoveOffline | runtime/transport/websocket_server.py:141-147 | with nobody connected what was due leaves the table and joins the offline queue in order |
| Delivery.WSServer.RetryPass | runtime/transport/websocket_server.py:115-150 | the pass over table and queues equals keeping survivors or waiting entries, by whether clients are connected |
| Delivery.WSServer.HandleAck | runtime/transport/websocket_server.py:57-61 | an acknowledgement removes the entry under its id and nothing else |
| Delivery.WSServer.SetPending | runtime/transport/websocket_server.py:225-231 | table assignment keeps the place of a known key and appends a new one |
| Delivery.WSServer.DeletePending | runtime/transport/websocket_server.py:138-139 | deletion of one key |
| Delivery.WSServer.BatchPass | runtime/transport/websocket_server.py:100-113 | a non-empty batch leaves whole and the buffer is emptied |
| Delivery.WSServer.ClientConnected | runtime/transport/websocket_server.py:39-48 | a new client gets the whole offline queue in order and the queue is emptied |
| Delivery.DroppedAreExpired | runtime/transport/websocket_server.py:138-139 | deleting the collected ids leaves exactly the entries with retries to spare |
| Delivery.OfflineLeavesWaiting | runtime/transport/websocket_server.py:141-147 | deleting the resent ids leaves exactly the entries that were not due |
| WorkerRuns.ChunksFed | runtime/audio/worker.py:272-332 | over any chunk sequence: a chunk taken while speaking is fed live once and in no other way; a quiet one is fed as padding, once, if and only if there was room for padding and no timeout when it was taken, and by an onset, once, if and only if it was among the last five quiet chunks before the next onset; it reaches the recogniser if and only if one of these holds |
| WorkerRuns.FedExactly | runtime/audio/worker.py:272-332 | by induction over the run: which events feed a chunk as padding and by an onset |
| WorkerRuns.SomeChunksAreLost | runtime/audio/worker.py:272-332 | a run in which a chunk never reaches the recogniser although an onset follows |
| WorkerRuns.OnsetFlushesPreRoll | runtime/audio/worker.py:262-299 | an onset feeds exactly the last up to five quiet chunks since the previous onset, in order, and then its own chunk |
| WorkerRuns.SpeechReachesRecogniser | runtime/audio/worker.py:262-332 | three speech-positive chunks in a row without a stream reset in between all reach the recogniser |
| WorkerRuns.IdleResetsApart | runtime/audio/worker.py:306-323 | inactivity resets never hit a speaking worker, are at least 21 chunks apart and at least 15 s after every earlier stream reset |
| WorkerRuns.DeliveryIgnoresPad | runtime/audio/worker.py:395-403 | a hypothesis is delivered if and only if there is text and the silence has not timed out |
| WorkerRuns.PreRollElements | runtime/audio/worker.py:104-106 | the pre-roll holds quiet chunks of the time since the last onset, in increasing order |
| WorkerRuns.NewFeedsFresh | runtime/audio/worker.py:272-332 | nothing a chunk causes to be fed was fed that way before |
| WorkerRuns.RunHeld | runtime/audio/worker.py:297-299 | before the onset the current run of speech-positive chunks is the tail of the pre-roll |
| WorkerRuns.NewIdleFits | runtime/audio/worker.py:306-319 | an inactivity reset comes at least 21 chunks after the last reset of any kind and respects the cooldown |
| WorkerRuns.StepInv | runtime/audio/worker.py:225-403 | every chunk and every external reset keeps counters, pre-roll, feeds and reset times consistent |
| WorkerHistory.ChunksFollowHistory | runtime/audio/worker.py:262-403 | after any run the counters are those of the verdicts since the last reset, padding is the first two quiet chunks, and last text, repetitions and longest text are those of the hypotheses delivered since then; the next chunk is delivered if and only if there is text and the silence stays below 25 chunks (if the last text has one of seven tokens in it) or 18, and causes an inactivity reset if and only if the silence equals that number, there was speech, and 15 s have passed; its feeds, speaking state and the delivered repetitions, longest text and generation are given as well |
| WorkerHistory.StepFollows | runtime/audio/worker.py:262-403 | every chunk and every external reset keeps the state that of the history |
| WorkerHistory.PatienceIs | runtime/audio/worker.py:302-304 | 25 chunks if and only if one of the seven tokens is in the text, otherwise 18 |
| WorkerHistory.GrowingTextWaits | runtime/audio/worker.py:302-319 | three positive chunks with "hey arvsal" and then silence: no reset by the 24th silent chunk, one by the 25th |
| WorkerHistory.FinishedTextWaits | runtime/audio/worker.py:302-319 | the same with "no": none by the 17th, one by the 18th |
| WorkerHistory.StartHeard | runtime/audio/worker.py:90-112 | the worker starts in a state from which these two runs begin |
| AudioWorker.AudioWorker.ProcessChunk | runtime/audio/worker.py:247-403 | one pass of the loop: hysteresis, timeout, feeding, tracking and delivery; in terms of the history in `WorkerHistory.ChunksFollowHistory` |
| AudioWorker.AudioWorker.UpdateSpeechState | runtime/audio/worker.py:262-299 | the speech state, what an onset flushes, and the pre-roll |
| AudioWorker.AudioWorker.FlushPreRoll | runtime/audio/worker.py:272-277 | the loop feeds the whole pre-roll in order and empties it |
| AudioWorker.AudioWorker.FeedRecogniser | runtime/audio/worker.py:325-332 | live feeding while speaking, at most two padding chunks otherwise |
| AudioWorker.AudioWorker.TrackHypothesis | runtime/audio/worker.py:383-393 | longest text so far and number of repetitions |
| AudioWorker.AudioWorker.DoStreamReset | runtime/audio/worker.py:410-431 | the worker's own reset raises the generation, notes the time and clears everything but the pre-roll |
| ClosedLoop.Streamer.ResetStream | runtime/asr/streaming.py:203-238 | the streamer's reset does the same and also resets the framing of the voice-activity detector, whose statistics stay |
| VadFraming.FramingIgnoresBoundaries | runtime/vad/pipeline.py:117-165 | two runs that gated in the same samples are in the same framing state, however the samples were cut into chunks |
| VadFraming.FramesOfStream | runtime/vad/pipeline.py:159-222 | fewer than 512 samples are left over, and run i of the model saw segment i behind the 64 samples before it, zeros at the start |
| VadFraming.FramesInNumbers | runtime/vad/pipeline.py:159-222 | the model has run once per 512 samples; each of its 576 input values is the one 64 samples back in the stream, or 0 before it |
| VadFraming.VerdictsAfterRuns | runtime/vad/pipeline.py:95-192 | after any run: below energy 0.0001 a chunk is dropped; otherwise it passes if and only if the prefilter and one of its new probabilities of at least 0.15 say so, or its energy is at least 0.009 and 1.8 times the median of the noise; reported probability, the three counters and the last 40 noise energies follow |
| VadFraming.GatedIs | runtime/vad/pipeline.py:112-150 | which samples count towards the stream since the last reset |
| VadFraming.NextInput | runtime/vad/pipeline.py:203-222 | context and segment together are the right stretch of the padded stream |
| VadFraming.DrainAligned | runtime/vad/pipeline.py:159-165 | draining keeps buffer, context, recurrent state and probabilities aligned with the stream |
| VadFraming.AlignedUnique | runtime/vad/pipeline.py:76-86 | a drained framing state is determined by the stream since the reset |
| VadFraming.HybridVAD.Process | runtime/vad/pipeline.py:95-192 | the three gates, the energy fallback, the noise history and the counters |
| VadFraming.HybridVAD.DrainBuffer | runtime/vad/pipeline.py:159-165 | the segment loop |
| VadFraming.HybridVAD.RunSilero | runtime/vad/pipeline.py:194-229 | one model run: input with context, new recurrent state, new context |
| VadFraming.HybridVAD.ResetState | runtime/vad/pipeline.py:76-86 | buffer, state and context start over |
| HypothesisBuffer.PurgeIsFilter | runtime/audio/realtime/ring_buffer.py:65-68 | popping from the front equals filtering out everything older than the window |
| HypothesisBuffer.PushKeepsNeighbours | runtime/audio/realtime/ring_buffer.py:29-50 | a push leaves neighbours not prefix-comparable if and only if it does not shorten the last text to a prefix of the entry before it while that entry is still inside the window |
| HypothesisBuffer.ExtendingRunKeepsNeighbours | runtime/audio/realtime/ring_buffer.py:29-50 | over any run whose replacements only extend the last text, neighbours are never prefix-comparable |
| HypothesisBuffer.ShorteningBreaksNeighbours | runtime/audio/realtime/ring_buffer.py:40-48 | a concrete shortening push that breaks it |
| HypothesisBuffer.Buffer.Push | runtime/audio/realtime/ring_buffer.py:29-50 | replace or append, then keep what is inside the window |
| HypothesisBuffer.Buffer.Purge | runtime/audio/realtime/ring_buffer.py:65-68 | exactly the recent entries remain |
| HypothesisBuffer.Buffer.GetWindow | runtime/audio/realtime/ring_buffer.py:52-55 | texts and stabilities of the recent entries in order |
| VariantIndex.VariantHasCanonical | runtime/matcher/variants.py:111-132 | every indexed variant has a canonical phrase, that of the last phrase in registry order listing it |
| VariantIndex.BuildIndex | runtime/matcher/variants.py:53-90 | the variant list has no duplicates, is in the order of first listing and equals the map's keys, the map gives each variant its last listing phrase, and each canonical phrase has the entry of its last descriptor |
| VariantIndex.AddVariants | runtime/matcher/variants.py:80-88 | adding one phrase's variants lets it win all of them |
| VariantIndex.CleanVariants | runtime/matcher/registry/phrase_registry.py:91-99 | cleaning a variant list keeps every non-blank variant once and invents none |
| VariantIndex.CleanInOrder | runtime/matcher/registry/phrase_registry.py:91-99 | the cleaned variants come in the order of their first appearance |
| VariantIndex.AcceptedEntry | runtime/matcher/registry/phrase_registry.py:64-109 | an entry is accepted if and only if it has a non-empty id, a phrase that is not blank, a threshold in (0, 1] and no negative cooldown; the descriptor has its values, and 2000 ms, enabled, weight 1 and no variants where it gives none |
| VariantIndex.FromDict | runtime/matcher/registry/phrase_registry.py:83-109 | the descriptor of an entry with its defaults, or rejection of an absent id, phrase or threshold, an empty id or phrase, a threshold outside (0, 1] or a negative cooldown |
| VariantIndex.AddAllKeepsLast | runtime/matcher/registry/phrase_registry.py:173-181 | loading keeps, for each id, the last phrase listed under it |
| VariantIndex.Registry.AddPhrase | runtime/matcher/registry/phrase_registry.py:173-181 | a known id is replaced in place, a new one goes to the end |
| VariantIndex.Registry.LoadProfile | runtime/kernel/orchestrator.py:129-146 | the profile becomes the active one in any case; registry and index are replaced if and only if every entry is accepted, and stay as they were otherwise |
| VariantIndex.LoadAgreesIff | runtime/kernel/orchestrator.py:133-146 | after a load the registry holds exactly what the last entry of the active profile under each id describes if and only if every entry was accepted or the registry held that already |
| VariantIndex.BadEntryDiverges | runtime/kernel/orchestrator.py:133-138 | a profile whose load leaves the report and the registry in disagreement |
| VariantIndex.RejectedLoadCanAgree | runtime/kernel/orchestrator.py:133-138 | a rejected profile that the registry agrees with all the same |
| LoadRuns.SnapshotIsWhole | runtime/matcher/registry/phrase_registry.py:236-243 | in every interleaving of loads, whenever the registry's lock is open the registry holds the whole of the last list loaded, and the index is that of the registry |
| LoadRuns.PickedVariantLosesCanonicalIff | runtime/matcher/evaluator.py:169-185 | a picked variant has no canonical phrase at look-up if and only if an index was swapped in since it was picked and the last such index does not list it |
| LoadRuns.PickedVariantCanLoseCanonical | runtime/matcher/evaluator.py:237-248 | an interleaving in which that happens |
| LoadRuns.ReadingsNonEmpty | runtime/matcher/registry/phrase_registry.py:64-80 | whatever the matcher reads at whatever moments, no enabled or canonical phrase is empty |
| LoadRuns.MatchFitsUnderLoads | runtime/matcher/evaluator.py:204-300 | with loads between its readings the match still has an empty phrase if and only if its score is 0 |
| LoadRuns.StepInv | runtime/kernel/orchestrator.py:140-146 | every step of a load keeps registry, index and lock in order |
| VariantIndex.Registry.ActivePhrases | runtime/matcher/registry/phrase_registry.py:236-243 | the enabled phrases in order |
| VariantIndex.ActiveIsEnabled | runtime/matcher/registry/phrase_registry.py:236-243 | each enabled phrase is active once, in registry order, and no other |
| Matcher.MatchFits | runtime/matcher/evaluator.py:204-300 | the matched phrase is empty if and only if the score is 0, and the score is between 0 and 1 |
| Matcher.MatchIsBest | runtime/matcher/evaluator.py:250-300 | a match is a qualifying phrase with its own score; no rival scores higher and none of equal score is longer |
| Matcher.PickedVariantIsScored | runtime/matcher/evaluator.py:237-248 | the picked variant is the longest one heard; it has a canonical phrase if and only if it is still listed when that is looked up, and then that phrase is scored, otherwise the enabled phrases alone |
| Matcher.FindMatchedVariant | runtime/matcher/evaluator.py:169-185 | the nested loops with their break find the first longest occurring variant |
| Matcher.LongestIsLongest | runtime/matcher/evaluator.py:169-185 | that variant occurs and no occurring variant is longer |
| Matcher.ResolveCandidate | runtime/matcher/evaluator.py:188-197 | the chosen candidate is one of the candidates and outranks all others by score, length and spelling |
| Matcher.TopIsTop | runtime/matcher/evaluator.py:196-197 | the same of the ranking itself |
| Matcher.CandidatesExact | runtime/matcher/evaluator.py:250-295 | the candidates are exactly the scored phrases that qualify, with their scores |
| MatchScores.MatchMeaning | runtime/matcher/evaluator.py:204-300 | for every window: empty if there is nothing to match or the anchor gate is shut; otherwise the variant is the first longest one heard, and the phrase is empty with score 0 if and only if no enabled or canonical phrase has a best ratio of 0.65 and at most as many distinct tokens as were heard; else it is such a phrase, its score 0.65 of the best ratio (the one by way of the variant taken at 0.85) plus 0.20 of the share of its context words heard plus 0.15 of the share of hypotheses of stability 2, and no other such phrase ranks above it by score, length and spelling |
| MatchScores.GoodRatioMatches | runtime/matcher/evaluator.py:250-295 | behind an open gate any ratio of 0.65 of a phrase in question with tokens enough gives a match |
| MatchScores.CombinedIsSpoken | runtime/matcher/evaluator.py:156-166 | the combined text repeats each hypothesis one to four times by stability 2, 4 and 6 |
| MatchScores.LongestIsFirst | runtime/matcher/evaluator.py:169-185 | the picked variant is the first of the longest ones heard |
| MatchScores.ScoreIsQualified | runtime/matcher/evaluator.py:250-293 | a phrase is scored if and only if it qualifies, with the weighted sum |
| MatchScores.FuzzyIsBest | runtime/matcher/evaluator.py:252-273 | the similarity used is the best of the ratios with the text, with each hypothesis and by way of the variant |
| Matcher.ComputeBestMatch | runtime/matcher/evaluator.py:204-300 | gates, candidate loop and resolution together; what the match means is `MatchScores.MatchMeaning` |
| WakeRuns.NoEmptyWake | runtime/kernel/orchestrator.py:364-435 | no run emits a wake with an empty phrase |
| WakeRuns.NoEmptyWakeUnderLoads | runtime/kernel/orchestrator.py:364-435 | the same when the phrases are read from a registry with profile loads in the background |
| WakeRuns.EmptyNeverFires | runtime/kernel/orchestrator.py:366-388 | with no phrase the raw value is at most 0.2 and neither threshold can be met |
| WakeRuns.SmoothIsBounded | runtime/kernel/orchestrator.py:346-366 | the smoothed confidence stays in [0, 1] and below every bound on the raw values since it started over |
| WakeRuns.SustainedConfidenceRises | runtime/kernel/orchestrator.py:363-366 | k raw values of at least r since it started over force it to at least r(1 - 0.3^k) |
| WakeRuns.FirstHypothesisNeedsEscape | runtime/kernel/orchestrator.py:346-408 | the first hypothesis of a new generation, of another phrase or after a wake fires if and only if its raw confidence reaches 0.86 and both gates are open |
| WakeDecisions.WakesExactlyWhen | runtime/kernel/orchestrator.py:346-435 | in every state reached and for every hypothesis a wake is added if and only if the raw confidence reaches 0.86 or its average since it last started over reaches 0.78, the generation is not the last one that triggered, and 2 s have passed since; all counters and confidences after it |
| WakeDecisions.SustainedConfidenceWakes | runtime/kernel/orchestrator.py:363-388 | k raw values of at least r with r(1 - 0.3^k) at least 0.78 give a wake through open gates |
| WakeDecisions.SteadyHypothesesWake | runtime/kernel/orchestrator.py:363-388 | a run of four hypotheses, all with raw values below 0.86, of which exactly the fourth wakes |
| WakeDecisions.SteadyAtStart | runtime/kernel/orchestrator.py:101-108 | the engine starts in a state from which that run begins |
| WakeDecisions.SteadyIsHey | runtime/matcher/evaluator.py:204-300 | a scorer and a phrase set for which that run exists |
| WakeDecisions.GatesRememberLastWake | runtime/kernel/orchestrator.py:390-412 | after any run the gates compare with generation and time of the last wake |
| WakeDecisions.QuietHypothesis | runtime/kernel/orchestrator.py:298-354 | a hypothesis that does not wake leaves its window, and its hit unless it began a generation |
| WakeDecisions.RawIs | runtime/matcher/scorers/phonetic.py:9-37 | hits go up above a score of 0.5 and down otherwise; the raw confidence is four fifths of the score and one fifth of the hits over the window, at least three, and at most 1 |
| WakeDecisions.CandidateIsKept | runtime/kernel/orchestrator.py:330-344 | the candidate after every hypothesis: opened, refreshed, replaced or timed out after 1 s, with the sessions archived, the false wakes counted and the confirmation by a wake, the same in engine and telemetry |
| WakeDecisions.WindowIsKept | runtime/kernel/orchestrator.py:298-308 | the window after every hypothesis: the entries of the last 3.5 s without one the text supersedes, then the text with its stability capped at 12, and a longer peak with 2 more behind it or in its place |
| WakeRuns.CandidatesAgree | runtime/telemetry/collector.py:105-152 | engine and telemetry always hold the same candidate; started equals confirmed plus dropped plus replaced plus open; false wakes are dropped plus replaced; confirmed never exceeds wakes |
| WakeRuns.StepIsEngine | runtime/kernel/orchestrator.py:240-435 | a step of a run is the engine's own step |
| WakeRuns.ObserveAgrees | runtime/kernel/orchestrator.py:330-344 | starting, updating, replacing and dropping candidates keeps both sides equal and the counts balanced |
| WakeRuns.FiredAgrees | runtime/kernel/orchestrator.py:411-423 | so does confirming on a wake |
| WakeRuns.EmaFloor | runtime/kernel/orchestrator.py:363-366 | the distance to the floor shrinks to 0.3 of itself with every value at or above it |
| WakeEngine.WakeEngine.HandleHypothesis | runtime/kernel/orchestrator.py:240-435 | nothing while paused, otherwise buffer, match, candidate, smoothing, gates and firing in order; when it wakes is `WakeDecisions.WakesExactlyWhen` |
| WakeEngine.WakeEngine.DecideOn | runtime/kernel/orchestrator.py:320-435 | everything after matching; when it wakes is `WakeDecisions.WakesExactlyWhen` |
| WakeEngine.WakeEngine.ObserveCandidate | runtime/kernel/orchestrator.py:330-344 | the candidate lifecycle on engine and telemetry |
| WakeEngine.WakeEngine.SmoothConfidence | runtime/kernel/orchestrator.py:346-366 | starting over and asymmetric smoothing |
| WakeEngine.WakeEngine.Fire | runtime/kernel/orchestrator.py:411-434 | all state a wake changes |
| WakeEngine.WakeEngine.FillBuffer | runtime/kernel/orchestrator.py:298-308 | text and longer peak are pushed, and the window is what is recent |
| WakeEngine.Confidence | runtime/matcher/scorers/phonetic.py:9-37 | at most 1, not negative, and at most 0.20 at score 0 |
| WakeEngine.TelemetryCollector.StartCandidate | runtime/telemetry/collector.py:105-119 | an active candidate is archived as replaced and counted as a false wake |
| WakeEngine.TelemetryCollector.UpdateCandidate | runtime/telemetry/collector.py:121-125 | peaks, frames and transcript of the active candidate grow |
| WakeEngine.TelemetryCollector.ConfirmCandidate | runtime/telemetry/collector.py:127-133 | the active candidate is archived as confirmed |
| WakeEngine.TelemetryCollector.DropCandidate | runtime/telemetry/collector.py:135-142 | the active candidate is archived as dropped and counted as a false wake |
| ClosedLoop.WakesAreApart | runtime/kernel/orchestrator.py:393-435 | in the loop of worker, stream and engine wakes have strictly increasing generations and are at least 2 s apart |
| ClosedLoop.LaterHypothesesAreNewer | runtime/asr/streaming.py:203-238 | every hypothesis delivered after a wake carries a strictly larger generation than the wake |
| ClosedLoop.GenerationGateNeverRejects | runtime/kernel/orchestrator.py:390-400 | whatever the worker delivers next passes the generation gate |
| ClosedLoop.LoopKeepsBoth | runtime/audio/worker.py:395-403 | what is proved of worker runs and of engine runs holds in the loop |
| ClosedLoop.DeliveredGeneration | runtime/asr/providers/sherpa.py:86-89 | a hypothesis carries the stream's generation, and a wake makes the next one larger |
| ClosedLoop.EngineStep | runtime/kernel/orchestrator.py:390-435 | the engine adds a wake only through open gates and then remembers its generation and time |
| ClosedLoop.LoopStep | runtime/audio/worker.py:395-403 | the engine gets every delivered hypothesis unless paused, with text, repetitions, longest text and generation, and the stream is reset exactly on the chunks that wake |
| ProfileMerge.MergedChainIsMostDerived | runtime/config/profile_loader.py:77-97 | for compatible profiles each leaf path of the merged chain has the value of the most derived profile defining it |
| ProfileMerge.MergeOverlaysIff | runtime/config/profile_loader.py:89-97 | for any two profiles the merge is the path-wise overlay if and only if no object meets a value in a way that loses or hides a leaf |
| ProfileMerge.MergeAssociativeIff | runtime/config/profile_loader.py:77-97 | merging is associative on three profiles if and only if no middle value separates two objects of which the last does not absorb the first |
| ProfileMerge.EmptyIsIdentity | runtime/config/profile_loader.py:77-97 | the empty profile is neutral on both sides |
| ProfileMerge.AbsorbsIff | runtime/config/profile_loader.py:89-97 | merging over a profile gives the upper one back if and only if it has all the lower one's keys, recursively |
| ProfileMerge.GroupingMatters | runtime/config/profile_loader.py:94-97 | three profiles on which associativity fails |
| ProfileMerge.DeepMerge | runtime/config/profile_loader.py:89-97 | the loop over the items in any order computes the merge |
| ProfileMerge.MergeProfiles | runtime/config/profile_loader.py:77-87 | the loop over the chain |
| ProfileChain.ResolutionIsTheTrail | runtime/config/profile_loader.py:41-75 | resolution returns an outcome if and only if a repeat-free walk along `extends` justifies it: the migrated chain root first, the first revisited file, the first absent parent, or the first unreadable file |
| ProfileChain.TrailDecides | runtime/config/profile_loader.py:47-75 | such a walk determines the outcome from each of its files |
| ProfileChain.TrailExists | runtime/config/profile_loader.py:47-75 | there always is such a walk |
| ProfileChain.MigratedProfile | runtime/config/profile_migrations.py:9-40 | a migrated profile has version 2 and the same parent, and all its phrases are weighted if and only if it came as version 1 or was weighted before |
| ProfileChain.UnweightedStaysUnweighted | runtime/config/profile_migrations.py:24-40 | a version 2 profile whose phrase stays unweighted |
| ProfileOnDisk.MigrationEffect | runtime/config/profile_migrations.py:9-40 | a version 2 profile is unchanged; a version 1 profile whose phrases can be gone through gets version 2, its list of phrases keeps length, order and fields with weight 1 exactly where none was, and every other setting keeps its value; another version is unsupported, and anything else malformed |
| ProfileOnDisk.LoadedFromDisk | runtime/config/profile_loader.py:14-97 | for compatible files each setting of the merged profile apart from version and wake phrases has the value of the most derived file, as it stands on disk, from the one loaded up to the first without a parent; the two debug switches are on with the overlay |
| ProfileOnDisk.PhrasesFromLast | runtime/config/profile_loader.py:89-93 | the wake phrases are those of the last profile that has any, taken whole |
| ProfileOnDisk.ReadIs | runtime/config/profile_loader.py:63-70 | which files can be read |
| ProfileOnDisk.ParentIs | runtime/config/profile_loader.py:57-59 | the parent is the one the file on disk names |
| ProfileOnDisk.OverlayLeaves | runtime/config/profile_loader.py:28-36 | the overlay has two settings, both on |
| ProfileChain.ApplyMigrations | runtime/config/profile_migrations.py:24-40 | the version loop: migrated, unsupported or malformed; what becomes of the profile is `ProfileOnDisk.MigrationEffect` |
| ProfileChain.AddWeights | runtime/config/profile_migrations.py:11-14 | the loop over a list of phrases gives weight 1 where none is, or fails on a phrase that cannot take one |
| ProfileChain.WeighPhrases | runtime/config/profile_migrations.py:9-16 | the same for whatever stands under the wake phrases: a list, an object, a string or something that cannot be iterated |
| ProfileChain.ResolveInheritance | runtime/config/profile_loader.py:47-75 | the loop with its growing chain and visited set equals the recursive walk |
| ProfileChain.LoadProfile | runtime/config/profile_loader.py:14-39 | chain, debug overlay last, merged, or the failure of the walk; against the files on disk in `ProfileOnDisk.LoadedFromDisk` |
| ProfileFlatten.EffectiveConfigIsMostDerived | runtime/kernel/orchestrator.py:148-160 | for compatible profiles the report holds exactly the values of the most derived profiles under their dotted keys if and only if no two of these values compete for a key |
| ProfileFlatten.Flatten | runtime/kernel/orchestrator.py:149-156 | in any order of visiting, the result has a key for exactly the paths that hold neither objects nor lists, each with one of the values reported under it; it has all values if and only if paths with the same dotted key have the same value |
| ProfileFlatten.FlatIffUnambiguous | runtime/kernel/orchestrator.py:149-156 | a result with these keys has every value if and only if no two values compete |
| ProfileFlatten.AmbiguousLosesValue | runtime/kernel/orchestrator.py:149-156 | a profile of which no order of visiting reports both values |
| ProfileFlatten.UndottedChainUnambiguous | runtime/kernel/orchestrator.py:149-156 | in profiles without dots in their keys no values compete |
| ProfileFlatten.EffectiveConfig | runtime/kernel/orchestrator.py:129-160 | from the files to the report: the walk along `extends`, migration, merge and flattening in one |
| ProfileFlatten.DottedInjective | runtime/kernel/orchestrator.py:149-156 | different paths of keys without dots have different dotted keys |
| ModelCache.CachedVerificationIsHashing | node/model_manager.js:119-145 | after any history of verifications, downloads and outside changes that began with an empty checksum file, in every interleaving of the verifications of a manifest with distinct ids each answer is what hashing would give, its entry is there and current, and no other entry is lost or changed |
| ModelCache.AnswersGenuineIff | node/model_manager.js:131-144 | for any manifest and any cache: all interleavings answer what hashing would if and only if both answers are reliable: no cached entry with a model's key gives one wrongly, and a model whose entry could mislead another under its id and key is never hashed, because the cache has its key and every model under the id shares it |
| ModelCache.AnswersRightIff | node/model_manager.js:131-144 | the same for each of the two answers by itself |
| ModelCache.EntriesCurrentIff | node/model_manager.js:137-142 | for any manifest and any cache: no interleaving leaves a verified model without its entry if and only if models under one id would write the same entry and every cached entry with a model's key holds the hash of its file |
| ModelCache.ConfusedAnswer | node/model_manager.js:131-132 | the schedule that gives a wrong answer when the misleading model is not cached |
| ModelCache.EvictedAnswer | node/model_manager.js:131-142 | the schedule when it is cached and a model with another key removes its entry first |
| ModelCache.StaleAnswer | node/model_manager.js:131-132 | the schedule when an entry from before answers wrongly |
| ModelCache.LostEntry | node/model_manager.js:137-142 | the schedule that loses an entry when two models under one id would write different ones |
| ModelCache.StaleEntry | node/model_manager.js:131-132 | a wrong entry with the current key stays |
| ModelCache.StaleHistoryMisleads | node/model_manager.js:119-145 | a history after which a genuine file of a manifest with a repeated id is answered "no", although no two files present share the id |
| ModelCache.PinnedEntryStays | node/model_manager.js:131-132 | while every model under an id has the cached key, no interleaving writes its entry |
| ModelCache.HistorySound | node/model_manager.js:119-211 | every history keeps each cache entry the hash of a file of a model of its manifest |
| ModelCache.TwoTurnsFinish | node/model_manager.js:360-363 | two turns of a verification finish it, whatever the others do in between and whatever is cached |
| ModelCache.NormalReturnMeansGenuine | node/model_manager.js:355-376 | after any such history, after a normal return every manifest model has its manifest hash if and only if models sharing a target agree on the hash |
| ModelCache.ReturnMeansGenuine | node/model_manager.js:355-376 | the same for any manifest and any cache from which no "yes" is given wrongly |
| ModelCache.RetryEffect | node/model_manager.js:232-245 | retrying succeeds if and only if some attempt fetched the right content; then only the target changes and is genuine, otherwise nothing changes |
| ModelCache.RetryInstallsFirst | node/model_manager.js:147-245 | retrying installs what the first attempt with the right content fetched, records its hash under its path and an entry under the key of no manifest, and changes nothing else; or it changes nothing |
| ModelCache.DownloadsInTurn | node/model_manager.js:371-373 | each download runs if and only if all before it succeeded |
| ModelCache.DownloadsKeep | node/model_manager.js:371-373 | genuine models survive the downloads of others |
| ModelCache.SharedIdConfuses | node/model_manager.js:131-142 | two models under one id and a schedule that answers "yes" for a file that is not genuine |
| ModelCache.FailedElements | node/model_manager.js:365-369 | the models downloaded are exactly those whose verification said no |
| ModelCache.FailedInOrder | node/model_manager.js:365-369 | each model whose verification did not say yes is downloaded once, in manifest order |
| ModelCache.ModelManager.BeginVerify | node/model_manager.js:119-135 | absent file, current cache entry, or hashing with the current key |
| ModelCache.ModelManager.FinishVerify | node/model_manager.js:137-144 | the checksum file is read again and one entry is set |
| ModelCache.ModelManager.VerifyAll | node/model_manager.js:360-363 | the resumed sections in the order of a schedule |
| ModelCache.ModelManager.DownloadModel | node/model_manager.js:147-211 | the target is replaced only by content with the right hash, together with its checksums |
| ModelCache.ModelManager.RetryDownload | node/model_manager.js:232-245 | the attempt loop |
| ModelCache.ModelManager.VerifyOrDownload | node/model_manager.js:355-376 | all verifications, then the failed models one after the other |
| Watchdog.AttemptsBackOff | runtime/supervisor/watchdog.py:117-175 | since the last clear each reset attempt waits out the capped doubling backoff of the one before, resets happen exactly below the eighth consecutive failure, and nothing follows an escalation |
| Watchdog.EscalationTakesTime | runtime/hardening/recovery_policy.py:51-82 | an escalation is the eighth of eight consecutive failures, without a reset, at least 12.7 s after the first |
| Watchdog.EscalatedStaysQuiet | runtime/supervisor/watchdog.py:121-127 | after an escalation no trigger does anything until the state is cleared |
| Watchdog.TotalsAgree | runtime/supervisor/watchdog.py:154-159 | the reset total equals the sum over the reasons |
| Watchdog.StreakTakesTime | runtime/hardening/recovery_policy.py:57-68 | the n-th consecutive failure comes at least 0.1 (2^(n-1) - 1) s after the first |
| Watchdog.EveryTrigger | runtime/supervisor/watchdog.py:117-168 | after any run a trigger is let through if and only if nothing was attempted since the last clear, or the last attempt reset and its backoff has passed; it is then the next consecutive failure, the next one waits 0.1, 0.2, 0.4, 0.8, 1.6, 3.2, 6.4 or 8.0 s, the eighth escalates and any other resets and counts by reason, and a success that is not critical clears the failures |
| Watchdog.TriggerEffect | runtime/supervisor/watchdog.py:117-168 | the same for every state the invariant allows |
| Watchdog.ClearEffect | runtime/supervisor/watchdog.py:170-175 | clearing opens the gate and keeps the statistics |
| Watchdog.RuntimeWatchdog.RecoverStream | runtime/supervisor/watchdog.py:117-168 | suppression, escalation or reset, with all state changes |
| Watchdog.RuntimeWatchdog.ResetRecoveryState | runtime/supervisor/watchdog.py:170-175 | the gate is cleared and the statistics stay |
| Watchdog.RecoveryPolicy.NextBackoff | runtime/hardening/recovery_policy.py:57-68 | the capped doubling delay and the count at the ceiling |
| RestartPolicy.GuardedRestartsSpread | runtime/supervisor/restart_policy.py:18-28 | any `maxRestarts + 1` permitted restarts span more than the window, whatever unguarded restarts lie in between |
| RestartPolicy.GuardCountsWindow | runtime/supervisor/restart_policy.py:24-28 | the guard permits if and only if fewer than `maxRestarts` recorded restarts lie in the preceding window |
| RestartPolicy.DequeIsWindow | runtime/supervisor/restart_policy.py:18-28 | after any run the deque holds exactly the restarts of the window that ends at the last event, guarded or not, in order |
| RestartPolicy.PurgedSuffix | runtime/supervisor/restart_policy.py:18-28 | purging by the front test leaves exactly the timestamps inside the window |
| RestartPolicy.StepInv | runtime/supervisor/supervisor.py:375-383 | guarded and heartbeat restarts keep the deque a faithful window of the history |
| RestartPolicy.Policy.HandleWorkerExit | runtime/supervisor/supervisor.py:375-383 | restart and record only with the guard's leave |
| RestartPolicy.Policy.CanRestart | runtime/supervisor/restart_policy.py:24-28 | purge, then compare the count |
| RestartPolicy.Policy.RecordRestart | runtime/supervisor/restart_policy.py:18-22 | append, then purge |

## Left out

- Sockets, threads, subprocesses, file streams, ONNX and microphone calls: only the state updates around them are modelled.
- Delivery.WSServer.ClientConnected: the offline flush is one step with its client alive; messages queued and clients lost between its sends are not modelled.
- The retry loop's sends are scheduled sends that may run in any order later, which allows more interleavings than the loop itself; when they run is not timed.
- Changes to the set of clients while a send iterates over it are not modelled.
- The client's own offline queue and reconnect schedule (node/transport.js:85-123, 160-176) concern the other direction.
- The anchor gate (runtime/matcher/evaluator.py:81-125) is a parameter; no result depends on what it accepts.
- Priority modes other than the configured one, and the settings that switch off the full-phrase requirement, are not modelled.
- The voice-activity detector without a Silero model: `reset_state` is then never called at construction, so its buffer does not exist (runtime/vad/pipeline.py:54-61).
- Speech durations, correlation ids of utterances, latencies, logging and the runtime state machines are not modelled.
- WorkerRuns.IdleResetsApart: resets from outside happen between chunks. The watchdog's thread can reset the stream while a chunk is handled (runtime/supervisor/watchdog.py:162), and between the worker's cooldown test and its own reset (runtime/audio/worker.py:313-319) this puts two resets next to each other; the same atomicity is assumed in the closed loop.
- A recogniser stream that is created on first use (runtime/asr/providers/sherpa.py:111-112): the streamer always resets the provider before the worker starts.
- JSON dictionaries are values: the in-place update of nested dictionaries in the merge is modelled by its result, which is sound because the code copies what it stores.
- Malformed profiles (wrong types where the code would raise a type error) are one outcome, not one per exception.
- The operations that enable, disable, update or remove single phrases of the registry: nothing in the runtime calls them.
- The engine looks the canonical phrase up once more for its candidate record; the model uses the matcher's reading there.
- WakeEngine.WakeEngine.Fire: does not model the sums of latencies and confidences, from which averages are reported.
- ModelCache.ModelManager.DownloadModel: does not model the record of installed models written at the end, which nothing else in the manager reads.
- Files do not change while they are being hashed: batches of verifications, downloads and outside changes follow one another. A verification that is still hashing when its batch ends is dropped; in the code, after one of them fails, the others go on in the background (node/model_manager.js:360) and may write their entries later.
- The supervisor's step ladder (worker restart, provider reload, degraded mode) and the health scorer: finite tables and easy bounds.

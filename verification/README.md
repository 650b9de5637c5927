# relayLLM, verified

A Dafny model of the concurrent, stateful and byte-level core of relayLLM, a router in front of
local and remote language-model servers, with proofs about it. Every core file is a module of its
own, in the form the source has: objects whose methods change fields are classes, loops are loops
with invariants, and protocols around a lock are step systems over which the theorems quantify
every run.

- **Managed servers** (`Budget`, `AdmissionProtocol`, `AdmissionSafety`, `AdmissionRuns`,
  `AdmissionExcess`, `ServerManager`). Admission, leases, eviction, launch ownership and the
  broadcast signal around one lock. Every critical section, channel close and atomic store is a
  step of a goroutine; the invariant is proved for every interleaving. A class holds the same
  manager for one Acquire that nobody interrupts.
- **The splice** (`JsonGrammar`, `JsonScan`, `JsonUnambiguity`, `AnthropicBody`,
  `JsonSpelling`). The scanner that rewrites `model` in place, against a concrete syntax of JSON
  (sections 2 to 7 of RFC 8259) that keeps every byte, the proof that a text has one reading, and
  what every spelling of the name decodes to.
- **Translation** (`ByteLines`, `SseEvents`, `StreamMeaning`, `StreamAnswers`, `StreamTranslator`,
  `ResponseWriter`, `RequestTranslation`, `ConversationFields`). The incremental translator from
  backend chunks to Anthropic events, its aggregated twin, the writer that holds a response back
  until its status is known, and the request side.
- **Virtual models** (`Affinity`, `VirtualTargets`, `VirtualCandidates`, `VirtualWalk`, `VirtualRuns`,
  `VirtualParams`). Pins, candidates, the failover walk, the default-field merge, and when a
  conversation does not hop backends, over every interleaving of requests.
- **Accounting** (`UsageTap`, `GgufFormat`, `GgufReader`, `GgufLayout`, `RegistryProtocol`,
  `Registry`, `Metrics`).

Where a loop is proved against a function, the modules `JsonSpelling`, `StreamAnswers`,
`ConversationFields`, `VirtualCandidates` and `GgufLayout` say what that function is in terms of
nothing but the input: literal bytes, field names, positions and order.

`dafny verify dfyconfig.toml` checks everything.

## Where the code does less than its comments say

Each of these is stated as a theorem with the condition under which it can happen, an if and only
if where one holds, and often with a concrete run.

- A process exit frees budget and wakes nobody. A goroutine sleeping although its model fits
  always owes it to an exited instance (`SleepsWithRoomOnlyAfterExit`, `SleepsThroughAnExit`).
- A victim is chosen in one critical section and stopped in a later one. What is stopped is leased
  if and only if it was leased in between (`StopsLeasedOnlyIfLeasedSince`, `EvictsALeasedInstance`).
- A stop frees the slot before the process is gone. What runs exceeds a cap by no more than the
  processes that have left their slots (`RunningIsTrackedAndStrays`, `RunningWithinCaps`,
  `RunsOverTheCap`).
- A pin is looked up before a request and recorded after its whole response. A request that
  overlaps the one that set a pin can move it, and nothing else does while circumstances are
  favourable (`PinStaysIffOldOnesQuiet`, `OverlapMovesPin`).
- Past 8 MiB waiting for a terminator, the translator drops bytes, and how the network cut the
  stream becomes visible (`CutsUnobservableIffQuiet`). Past 8 MiB of text, the aggregated message is
  shorter than the streamed one (`RenderingsAgreeIffWithinCap`).
- A flush of a streaming response commits 200 before an error is known, and an error status that
  is not final never becomes the client's (`StatusReachesClient`, `PanicsIffOutOfRange`).
- A status of 0 makes the in-band error branch reachable (`InBandIffZeroFirst`).
- Freshness and fetch are checked in separate steps. A fresh endpoint is fetched again if and only
  if its status was stored after the goroutine had looked (`FetchesFreshIffStoredSince`,
  `FetchedAgainWhileFresh`).
- An unsigned 64-bit metadata value of 2^63 or more comes back negative (`RecoveredIff`).
- Whether a plain endpoint model is served natively does depend on reachability
  (`EndpointNativeIffOnline`).

## Model

| member | source | states |
|---|---|---|
| AdmissionSafety.StepKeeps | internal/servermanager/server_manager.go:404-536 | every step of every goroutine, and every process exit and clock tick, keeps the whole invariant: leases are counted exactly, launches are owned, sleepers have nothing to evict, signals are closed once, the budget holds |
| AdmissionRuns.RunKeepsInvariant | internal/servermanager/server_manager.go:404-536 | the invariant holds after any run of any interleaving of acquires, releases, stops, sweeps, launch outcomes and exits |
| AdmissionRuns.ReachableIsSafe | internal/servermanager/server_manager.go:404-536 | the same for every reachable state |
| AdmissionRuns.NoLostWakeup | internal/servermanager/server_manager.go:479-497 | a goroutine asleep on an open signal sleeps on the current one, and every other tracked instance is leased or has exited, so it never coexists with an eviction candidate |
| AdmissionRuns.NoDoubleClose | internal/servermanager/server_manager.go:789-795 | no channel is ever closed twice and the current signal is open |
| AdmissionRuns.ReadyClosedOnce | internal/servermanager/server_manager.go:684-712 | an instance's ready channel is open whenever its launcher is about to close it |
| AdmissionRuns.LeasesAreHandles | internal/servermanager/server_manager.go:765-787 | a lease counter is exactly the number of unreleased handles, so the guard before the decrement never fails |
| AdmissionRuns.StartingIsNeverVictim | internal/servermanager/server_manager.go:505-535 | a tracked instance that is not yet healthy carries the lease of the goroutine launching it and is never an eviction victim |
| AdmissionRuns.ReadyMeansResolved | internal/servermanager/server_manager.go:684-712 | once an instance's ready channel is closed it is healthy or no longer in its slot |
| AdmissionRuns.HeldIsHealthyAndNotSelected | internal/servermanager/server_manager.go:432-443 | a caller holding a lease got a healthy instance, and while it keeps the lease the instance is not selected for eviction |
| AdmissionRuns.OnlyOwnOccupantRemoved | internal/servermanager/server_manager.go:797-815 | a slot is emptied only by its own failed launch, by somebody who found its occupant dead, or by a stop; nobody replaces or removes somebody else's occupant |
| AdmissionRuns.BudgetSafety | internal/servermanager/server_manager.go:476-515 | tracked instances whose process runs never exceed the instance cap or the memory cap, in any reachable state |
| AdmissionExcess.RunningIsTrackedAndStrays | internal/servermanager/server_manager.go:959-994 | in every reachable state all running processes weigh, in number and in memory, exactly what the tracked ones do plus those that have left their slots |
| AdmissionExcess.RunningWithinCaps | internal/servermanager/server_manager.go:476-515 | so running processes exceed a cap by no more than those out of their slots, and not at all once each of these has exited |
| AdmissionExcess.StrayOnlyByStop | internal/servermanager/server_manager.go:797-815 | a running process leaves its slot only when it is stopped or its own launch failed |
| AdmissionExcess.RunsOverTheCap | internal/servermanager/server_manager.go:959-994 | a concrete run in which two processes run under a cap of one |
| AdmissionRuns.SleepsWithRoomOnlyAfterExit | internal/servermanager/server_manager.go:668-676 | a goroutine that sleeps although its model fits owes it to a tracked instance that exited, since an exit signals nobody |
| AdmissionRuns.SleepsThroughAnExit | internal/servermanager/server_manager.go:668-676 | a concrete run in which that happens: the model fits and its goroutine still sleeps on an open signal |
| AdmissionRuns.StopsLeasedOnlyIfLeasedSince | internal/servermanager/server_manager.go:479-487 | the instance an evictor or a sweep stops is leased if and only if somebody leased it after the choice was made |
| AdmissionRuns.EvictsALeasedInstance | internal/servermanager/server_manager.go:479-487 | a concrete run in which an instance leased between choice and stop is stopped while healthy and leased |
| AdmissionRuns.EvictsOnlyForRoom | internal/servermanager/server_manager.go:476-515 | a goroutine evicts or sleeps only with its slot free and only when launching its model beside all other running tracked instances would break the count or the memory cap |
| AdmissionRuns.EvictsOldestIdle | internal/servermanager/server_manager.go:749-763 | what it evicts is another alias's running, unleased instance, none of which has been unused for longer, and it sleeps only when there is none |
| AdmissionRuns.SweepsIdle | internal/servermanager/server_manager.go:841-860 | a sweep stops exactly the tracked running instances nobody leases that have been unused for at least the idle timeout |
| AdmissionRuns.LastUseIsLastLease | internal/servermanager/server_manager.go:766-787 | in every step an instance's last use becomes now if and only if somebody leases it or gives a lease of it back, and else stays |
| Budget.FitsIffWithinAfter | internal/servermanager/server_manager.go:725-747 | a model is admitted if and only if both caps, the count and the summed memory of what runs, still hold with it launched |
| Budget.BytesAddUp | internal/servermanager/server_manager.go:725-747 | memory is summed: one more instance adds its bytes to the total |
| ServerManager.AdmittedIffBusyLeaveRoom | internal/servermanager/server_manager.go:476-515 | a lone Acquire refuses a model if and only if launching it beside the busy instances alone would break a cap, and admitting it keeps both |
| ServerManager.BusyAre | internal/servermanager/server_manager.go:749-763 | the busy instances are the exited, the leased and the requester's own |
| ServerManager.Manager.Acquire | internal/servermanager/server_manager.go:404-536 | one Acquire alone: exactly which outcome it has, which instances it evicts, what is tracked afterwards, how the lease it gives looks, a reused instance stamped, and that no other instance's leases or last use change |
| ServerManager.EvictionOrder | internal/servermanager/server_manager.go:746-763 | the victims are idle instances, each once, in order of last use, and every idle instance spared was used no earlier than any of them |
| ServerManager.NoShorterRun | internal/servermanager/server_manager.go:479-487 | no shorter prefix of the victims would have made room |
| ServerManager.BusyDecides | internal/servermanager/server_manager.go:725-744 | the model is admitted exactly when the busy instances alone leave it room, and when it is not every idle instance has been evicted |
| ServerManager.TooBigIffEmptyCannotHold | internal/servermanager/server_manager.go:409-416 | the rejection before any waiting tells exactly the models that do not fit an empty manager by memory |
| ServerManager.Manager.FitsLocked | internal/servermanager/server_manager.go:725-744 | the scan over the instances computes whether count and memory of the other running ones leave room |
| ServerManager.Manager.LruIdleVictimLocked | internal/servermanager/server_manager.go:749-763 | the scan finds an idle running instance none is older than, or there is none |
| ServerManager.Manager.Release | internal/servermanager/server_manager.go:772-787 | the first release lowers the count and stamps the use, a later one changes nothing; waiters are woken exactly when the count reaches zero |
| ServerManager.Manager.DropLocked | internal/servermanager/server_manager.go:800-806 | the slot is emptied and waiters are woken exactly when the instance is still its occupant |
| ServerManager.Manager.ReapIdle | internal/servermanager/server_manager.go:841-860 | exactly the unleased running instances idle for at least the timeout are dropped, and the signal is closed and replaced exactly when there were any |
| ServerManager.Manager.StopInstance | internal/servermanager/server_manager.go:959-968 | the slot of a tracked instance is freed and waiters are woken; otherwise nothing changes |
| ServerManager.Manager.Start | internal/servermanager/server_manager.go:505-534 | a launch leaves a healthy leased instance in the slot or, failing, nothing |
| JsonScan.ValueEnd | internal/router/anthropic_body.go:104-150 | for every value of the JSON grammar and whatever follows it, the skip lands exactly on the value's end |
| JsonScan.SkipJSONValue | internal/router/anthropic_body.go:106-135 | the loops stay within the text and stop where the scan function says, on any bytes |
| JsonScan.SkipJSONString | internal/router/anthropic_body.go:137-150 | the same for strings, escapes and unterminated ones included |
| JsonUnambiguity.Unambiguous | internal/router/anthropic_body.go:32-60 | a text has at most one reading: two valid documents with the same text are equal |
| AnthropicBody.UnquoteQuoted | internal/router/anthropic_body.go:77-80 | decoding a rendered key gives the characters it denotes, escapes resolved |
| AnthropicBody.ScanKey | internal/router/anthropic_body.go:76-81 | the scan over a key and its colon ends at the value, and the key of a valid text always decodes, so the bad-key error is unreachable |
| AnthropicBody.TopLevelModelSpans | internal/router/anthropic_body.go:64-95 | the spans found are exactly the value ranges of the top-level members named model, escaped spellings and duplicates included, or the error the document deserves |
| AnthropicBody.SpliceObject | internal/router/anthropic_body.go:51-59 | replacing the bytes of those spans gives the rendering of the document with those values replaced |
| AnthropicBody.MutateAnthropicBody | internal/router/anthropic_body.go:32-60 | for any body: rejected if not JSON; otherwise, for its reading, the exact result - rewritten text, not an object, a model that is no string, or no model |
| AnthropicBody.RewriteMeaning | internal/router/anthropic_body.go:20-31 | whatever the new body is read as, it has the same members, order and layout, every top-level model has the new value and every other value, nested models included, is untouched |
| AnthropicBody.RewriteIsJson | internal/router/anthropic_body.go:20-31 | the new body is valid JSON |
| AnthropicBody.RewriteTwice | internal/router/anthropic_body.go:20-31 | rewriting a rewritten body gives what rewriting the original with the last name gives |
| JsonSpelling.HexWrites | internal/router/anthropic_body.go:78-84 | four hex digits in either case, read from a digit table, decode to exactly the number they write |
| JsonSpelling.Decodes | internal/router/anthropic_body.go:78-84 | a key decodes character by character in literal bytes: plain ones to themselves, each short escape to its listed unit, \u and four digits to what they write |
| JsonSpelling.Punctuation | internal/router/anthropic_body.go:97-150 | the bytes the scanner looks for, as characters |
| JsonSpelling.Alphabet | internal/router/anthropic_body.go:97-150 | which bytes are space, digits, hex digits and escape letters |
| JsonSpelling.Literals | internal/router/anthropic_body.go:106-135 | the three literals are true, false and null |
| JsonSpelling.NamedModelIff | internal/router/anthropic_body.go:84-90 | a member is the one looked for if and only if its key has five characters that are the letters m, o, d, e, l, each plain or as its hex escape |
| JsonSpelling.RefusedIff | internal/router/anthropic_body.go:64-91 | a valid body is refused if and only if it is no object, a member named model is no string, or there is none, each with its own error |
| JsonSpelling.NamedModelsReplaced | internal/router/anthropic_body.go:32-60 | in every reading of the new body exactly the members named model, in any spelling, are replaced |
| SseEvents.EventEndIsFirst | internal/router/router_anthropic_translate.go:613-625 | an event ends at the first pair of newlines |
| SseEvents.SplitAppend | internal/router/router_anthropic_translate.go:608-628 | cutting a stream piece by piece, keeping the rest between, cuts it as at once |
| SseEvents.CutsUnobservableIffQuiet | internal/router/router_anthropic_translate.go:602-622 | how the network cuts a stream cannot be observed if and only if no point of it leaves more than the cap waiting for a terminator |
| SseEvents.LoudCut | internal/router/router_anthropic_translate.go:615-621 | a cut where more waits than the cap loses bytes for good: a different result than feeding the stream at once |
| StreamTranslator.Translator.Feed | internal/router/router_anthropic_translate.go:608-628 | for a chunk cut anywhere: every completed event is applied in order, its events are written, and the rest waits or is dropped past the cap |
| StreamTranslator.Translator.ApplyEvent | internal/router/router_anthropic_translate.go:630-647 | every data line of an event that decodes is applied, in order, and nothing else |
| StreamTranslator.Translator.ApplyChunk | internal/router/router_anthropic_translate.go:678-694 | usage, finish reason, text and tool fragments of a chunk are applied in that order |
| StreamTranslator.FoldedMeans | internal/router/router_anthropic_translate.go:712-763 | what is accumulated piece by piece is, declaratively: the joined text capped, per tool index the last id and name and its joined arguments capped, indices by first appearance, last reason and usage |
| StreamMeaning.CapStep | internal/router/router_anthropic_translate.go:712-720 | capping as pieces come is capping the whole at the end |
| StreamMeaning.OrderIsFirstAppearance | internal/router/router_anthropic_translate.go:747-763 | the tool order lists every index that occurs exactly once |
| StreamMeaning.EarlierFirst | internal/router/router_anthropic_translate.go:747-763 | later fragments never change the order of the calls seen before them |
| StreamMeaning.InterleavingUnobservable | internal/router/router_anthropic_translate.go:534-543 | backends that send the same texts and the same fragments per call get the same stream and message however they interleave the fragments |
| StreamTranslator.Translator.Finish | internal/router/router_anthropic_translate.go:768-817 | closes the text block, then one complete block per tool call with consecutive indices, then message_delta and message_stop |
| StreamTranslator.Translator.BuildMessage | internal/router/router_anthropic_translate.go:822-863 | the aggregated message: capped text, tool blocks in order of first appearance, stop reason and usage |
| StreamMeaning.StreamTellsMessage | internal/router/router_anthropic_translate.go:722-817 | for every backend behaviour the emitted events are well formed - start first, consecutive indices, one open block, everything closed - and read back as the message of what was sent, text uncapped |
| StreamMeaning.RenderingsAgreeIffWithinCap | internal/router/router_anthropic_translate.go:696-720 | the streamed events and the aggregated message tell the same message if and only if the text is within the cap |
| StreamMeaning.StreamingAndAggregationAgree | internal/router/router_anthropic_translate.go:608-863 | for a stream within both caps, the events streamed for one cutting read back as the message aggregated from any other cutting |
| StreamMeaning.PingsAreIgnored | internal/router/router_anthropic.go:577-584 | pings after the first event and before the last change nothing a reader sees |
| StreamAnswers.BothStopAlike | internal/router/router_anthropic_translate.go:865-877 | the aggregated message and the assembled stream have the same stop reason: tool_use if and only if some tool is called or the last finish reason is tool_calls, max_tokens if and only if none is and it is length, end_turn otherwise |
| StreamAnswers.UsageIs | internal/router/router_anthropic_translate.go:678-682 | the usage is the last one reported, its output estimated as a token for four bytes of the kept text, at least one, when none or zero was reported |
| StreamAnswers.ContentIs | internal/router/router_anthropic_translate.go:822-860 | the content is the text, if any, and one block a call in order of first appearance: the last id given or a generated one, the last name, the joined arguments or {} when blank or no JSON |
| StreamAnswers.OnePiece | internal/router/router_anthropic_translate.go:678-694 | which texts and fragments some pieces hold, one piece at a time |
| StreamAnswers.LineCarries | internal/router/router_anthropic_translate.go:630-647 | a line carries a chunk exactly when it starts with data: and goes on with something other than [DONE] that decodes |
| StreamAnswers.ChunkHeard | internal/router/router_anthropic_translate.go:678-694 | one more chunk adds its non-empty texts and its call fragments in order, its last finish reason and its usage, and nothing else |
| ResponseWriter.RunTells | internal/router/router_anthropic.go:461-526 | the writer's whole state after any sequence of calls, from the calls alone |
| ResponseWriter.StatusIs | internal/router/router_anthropic.go:461-497 | the status decided is that of the first call that is a chunk, standing for 200, or a status line other than 0; which calls leave it open, and when a 0 came first |
| ResponseWriter.FlushedIff | internal/router/router_anthropic.go:520-526 | a response counts as flushed if and only if a flush is among the calls |
| ResponseWriter.OneStatusLine | internal/router/router_anthropic.go:461-510 | a status line is asked of the client's connection at most once before the end and exactly once in all |
| ResponseWriter.InBandIffZeroFirst | internal/router/router_anthropic.go:600-639 | a begun stream and an error coexist, so that the in-band error branch is reached, if and only if a status of 0 was written before the call that began the stream; the other in-band branch is unreachable |
| ResponseWriter.ZeroThenOkEndsInBand | internal/router/router_anthropic.go:461-473 | a concrete such sequence of calls |
| ResponseWriter.EndingFollowsBackend | internal/router/router_anthropic.go:600-648 | otherwise the ending follows the backend's status |
| ResponseWriter.StatusReachesClient | internal/router/router_anthropic.go:461-473 | the client gets the intended status if and only if it is a final one, and it is 200 or no flush of a streaming response has committed 200 |
| ResponseWriter.PanicsIffOutOfRange | internal/router/router_anthropic.go:654-661 | the connection panics exactly when an error outside 100 to 999, a status of 0 among them, is the first thing asked of it |
| ResponseWriter.NothingEarly | internal/router/router_anthropic.go:414-420 | nothing reaches the client before the status is decided, save the 200 a flush of a streaming response commits |
| ResponseWriter.PingsIff | internal/router/router_anthropic.go:577-588 | a turn of the ping loop sends one ping if and only if the response is a streamed one that has begun without an error |
| ResponseWriter.ZeroAlonePanics | internal/router/router_anthropic.go:461-473 | a concrete run in which it does: the backend's only word is a status line of 0 |
| ResponseWriter.ErrorTextIsKept | internal/router/router_anthropic.go:499-502 | the client gets the envelope of all bytes of an error answer, or no body: exactly when 200 was committed early, or the status is in range and not a final one without a body; and no event is written |
| ResponseWriter.FinishedStreamTellsMessage | internal/router/router_anthropic.go:640-644 | a finished stream, pings interleaved anyhow, is well formed and tells the message of exactly the chunks received |
| ResponseWriter.StreamedAndWholeAgree | internal/router/router_anthropic.go:640-647 | the same backend bytes, cut differently and with any pings and flushes, read the same streamed or taken whole |
| ResponseWriter.TranslatingResponseWriter.WriteHeader | internal/router/router_anthropic.go:461-488 | only the first non-zero status counts; 200 begins the real response |
| ResponseWriter.TranslatingResponseWriter.Write | internal/router/router_anthropic.go:490-510 | a write implies 200, is buffered on error and fed to the translator otherwise |
| ResponseWriter.TranslatingResponseWriter.Flush | internal/router/router_anthropic.go:512-526 | a flush reaches the client if and only if the response is streamed, error or not |
| ResponseWriter.TranslatingResponseWriter.PingTick | internal/router/router_anthropic.go:577-584 | a ping is written only into a begun, error-free response |
| ResponseWriter.TranslatingResponseWriter.Finish | internal/router/router_anthropic.go:600-648 | what the client has in the end, for each of the six endings |
| RequestTranslation.AnthropicToOpenAI | internal/router/router_anthropic_translate.go:155-256 | the messages of a whole request or the first reason it is refused, for every request |
| RequestTranslation.TranslatedIff | internal/router/router_anthropic_translate.go:157-239 | a request is translated if and only if it parses, has a message, every content parses, every role is known and every tool is the client's own |
| RequestTranslation.OneLeadingSystem | internal/router/router_anthropic_translate.go:164-211 | there is at most one system message, it is first, and it joins every system source with text in order |
| RequestTranslation.ConversationIsConserved | internal/router/router_anthropic_translate.go:333-415 | the sequences of tool results, of tool calls, of what each assistant message says and of the user's other content are kept, in order, over the whole conversation |
| ConversationFields.FieldsAreConserved | internal/router/router_anthropic_translate.go:340-425 | field by field and in order: each result under the id of its call, marked Error: if and only if it is one; each call under its id and name with its arguments or {}; what each assistant message says, in paragraphs; each text and url of the user's, with what stands for content that cannot be sent |
| ConversationFields.SystemIs | internal/router/router_anthropic_translate.go:165-214 | the one system message holds, in paragraphs, the texts of the system field and then of every system message, and exists if and only if there is any |
| ConversationFields.RefusedFor | internal/router/router_anthropic_translate.go:155-260 | a request is refused for the first fault in a fixed order, the first message or tool at fault being blamed, and is translated when there is none |
| RequestTranslation.ResultsComeFirst | internal/router/router_anthropic_translate.go:364-367 | within what one message becomes, its tool results come first and at most one other message follows |
| RequestTranslation.SegmentsAppend | internal/router/router_anthropic_translate.go:186-208 | messages keep their order |
| Affinity.RecordKeepsRefinement | internal/router/router_virtual_affinity.go:128-147 | every write keeps the store within its capacity, holding only what was last recorded, and loses a live entry only to as many others at least as recent as it can hold |
| Affinity.LookupRefines | internal/router/router_virtual_affinity.go:108-119 | a lookup gives the live target last recorded under that very key or a miss, and misses a live one only when that many others are at least as recent |
| Affinity.LookupOverHistory | internal/router/router_virtual_affinity.go:104-147 | the same after any history of writes from an empty store, with its size within the capacity |
| Affinity.LookupFinds | internal/router/router_virtual_affinity.go:108-119 | a pin is found until more than the time to live has passed, and only under a conversation's key |
| Affinity.RecordPins | internal/router/router_virtual_affinity.go:128-147 | a write pins its conversation, refreshed; every other pin is the one there was, and a live one is lost only when the store was full of live ones, and then one, an oldest |
| Affinity.VirtualAffinityStore.LookupPin | internal/router/router_virtual_affinity.go:108-119 | the live pin of exactly that virtual model and conversation, or a miss; an empty conversation key always misses |
| Affinity.ExpiryUnobservable | internal/router/router_virtual_affinity.go:189-198 | dropping expired entries changes no lookup and no count, then or later |
| Affinity.WriteAfterSweep | internal/router/router_virtual_affinity.go:128-147 | whatever was swept before it, a write under a conversation can leave exactly the same stores |
| Affinity.SweepsUnobservable | internal/router/router_virtual_affinity.go:128-198 | over any history of writes, when expired entries are swept cannot be observed: with any other sweeps, none or one before every write, there is a history whose stores answer every lookup and count alike at every point |
| Affinity.VirtualAffinityStore.Record | internal/router/router_virtual_affinity.go:128-147 | expires, refreshes in place or evicts an oldest entry and inserts; the refinement is kept |
| Affinity.VirtualAffinityStore.EvictLRULocked | internal/router/router_virtual_affinity.go:204-217 | exactly one entry none is older than goes, if there is any |
| Affinity.VirtualAffinityStore.ExpireLocked | internal/router/router_virtual_affinity.go:191-198 | exactly the entries past their time go |
| Affinity.VirtualAffinityStore.PinCounts | internal/router/router_virtual_affinity.go:167-187 | every count is the number of live pins of that virtual model on that target |
| VirtualTargets.TwoPassesEscapeEach | internal/router/router_virtual.go:94-102 | the two replacement passes escape each character on its own |
| VirtualTargets.IdentityIffSameName | internal/router/router_virtual.go:48-69 | two candidates have the same identity if and only if they name the same alias or the same endpoint and model; no identity is empty |
| VirtualTargets.CandidatesForVirtual | internal/router/router_virtual.go:146-180 | fresh candidates in declared order, then last-resort ones in declared order, and the number of fresh ones |
| VirtualCandidates.CandidatesAre | internal/router/router_virtual.go:146-200 | what each target contributes: an endpoint and model one candidate with the last configuration, model and params, fresh if and only if some status has it online; an alias one fresh candidate on the first manager that has it; any other nothing; fresh ones first, each group in declared order |
| VirtualCandidates.PlainIdentity | internal/router/router_virtual.go:48-104 | without slashes and backslashes an identity is plainly alias:name or endpoint:name/model |
| VirtualTargets.ReachabilityOnlyReorders | internal/router/router_virtual.go:130-145 | over the same endpoints, what is believed online changes the order of the candidates and nothing else |
| VirtualTargets.PinnedGoesFirst | internal/router/router_virtual.go:230-258 | a pinned candidate goes first, all others keep their order, none is lost or made up, and an absent one changes nothing |
| VirtualTargets.ApplyAffinity | internal/router/router_virtual.go:239-258 | the loop and the reordering compute that order |
| VirtualWalk.WalkStopsAtFirst | internal/router/router_virtual.go:296-354 | the walk stops at the first candidate that answers or commits; every one before it failed having written nothing |
| VirtualWalk.AtMostOneWrites | internal/router/router_virtual.go:296-354 | at most one candidate writes to the client |
| VirtualWalk.AttemptedIff | internal/router/router_virtual.go:296-354 | a candidate is attempted if and only if the caller was there each time and every earlier one failed having written nothing |
| VirtualWalk.PinnedIff | internal/router/router_virtual.go:329-344 | the candidate that answers is pinned if and only if its status is below 500 |
| VirtualWalk.RouteVirtualWith | internal/router/router_virtual.go:296-354 | where the walk ends and what it leaves in the store: a pin on the candidate that answered, unless with a server error |
| VirtualWalk.ResponseRecorder.Write | internal/router/router_virtual.go:459-470 | a write goes through and is known, and implies 200 if no status was given |
| VirtualRuns.RunRefines | internal/router/router_virtual_affinity.go:128-147 | in every state of every interleaving of lookups, walks that end and passing time the store refines all that was recorded |
| VirtualRuns.PinStaysIffOldOnesQuiet | internal/router/router_virtual.go:296-354 | in any interleaving, from a state in which a conversation is pinned and while its target is configured, does not fail before responding, answered within the time to live and fewer others than the store holds are at least as recent, the pin stays if and only if no request of it that looked up before the pin answers afterwards from another candidate |
| VirtualRuns.ConversationSticks | internal/router/router_virtual.go:230-258 | and then every request that looks up after the pin has its target first and, when it ends, has attempted no other, whatever is believed online and whatever overlaps it |
| VirtualRuns.OverlapMovesPin | internal/router/router_virtual.go:343 | a concrete run of two overlapping requests of one conversation after which the third goes to the second endpoint, though the first never failed |
| VirtualRuns.SticksToOneBackend | internal/router/router_virtual.go:48-69 | what a conversation sticks to is one alias, or one endpoint and model |
| VirtualTargets.ResolveAnthropicNative | internal/router/router_anthropic_native.go:65-99 | managed alias, virtual model, then online endpoint; a virtual model only if every candidate speaks the dialect |
| VirtualCandidates.NativeIff | internal/router/router_anthropic_native.go:65-101 | a name is dispatched as a managed alias, else a virtual model, else an online endpoint's model, and is native if and only if all it stands for speaks the dialect |
| VirtualTargets.NativeUnaffectedByReachability | internal/router/router_anthropic_native.go:57-64 | whether an alias or a virtual model is served natively does not depend on what is believed online |
| VirtualTargets.EndpointNativeIffOnline | internal/router/router_anthropic_native.go:89-97 | a plain endpoint model is native exactly while its endpoint is believed online and speaks the dialect; two beliefs about the same endpoints give different verdicts exactly when one has it online, the other not, and it speaks |
| VirtualParams.MergeParams | internal/router/router_virtual_params.go:53-79 | the recursive merge updates the client's object to the deep merge, notes exactly the injected and kept paths, and reports a change exactly when something was injected |
| VirtualParams.NothingInjected | internal/router/router_virtual_params.go:43-45 | nothing is injected exactly when the merge is the client's own object |
| VirtualParams.ApplyVirtualParams | internal/router/router_virtual_params.go:27-51 | what goes upstream: the original bytes unless both sides are objects and something was injected |
| VirtualParams.ClientWins | internal/router/router_virtual_params.go:20-25 | every client value that is no object, null included, is in the merge where it was |
| VirtualParams.DeclaredWhereThereIsRoom | internal/router/router_virtual_params.go:56-63 | a declared value is in the merge exactly where the client left room for it |
| VirtualParams.NothingMadeUp | internal/router/router_virtual_params.go:53-79 | every value in the merge is the client's or a declared one |
| VirtualParams.KeysAreUnited | internal/router/router_virtual_params.go:64-75 | at every object both sides hold the merge has the keys of both |
| VirtualParams.MergeTwice | internal/router/router_virtual_params.go:53-79 | a second merge changes nothing |
| VirtualParams.InjectedIff | internal/router/router_virtual_params.go:53-80 | what is reported as injected is exactly the dotted path of every declared value beneath an object of the client's that has nothing there |
| VirtualParams.KeptIff | internal/router/router_virtual_params.go:53-80 | and as kept exactly the dotted path of every client value that stands against a declared one |
| UsageTap.UsageTap.FeedLines | internal/router/anthropic_usage_tap.go:59-95 | for any chunk, the fields stand for the whole stream read so far: its complete lines folded, its last line carried or marked too long |
| UsageTap.UsageTap.Finish | internal/router/anthropic_usage_tap.go:152-171 | the report is the usage of the whole stream, a function of its bytes alone, and is made at most once |
| UsageTap.UsageTap.Read | internal/router/anthropic_usage_tap.go:43-52 | every byte goes on as it came, and the first read that meets the end reports; a read after the end or a close reports nothing more |
| UsageTap.UsageTap.Close | internal/router/anthropic_usage_tap.go:54-57 | a response closed early reports the usage of what was read, once |
| UsageTap.LaterCountsWin | internal/router/anthropic_usage_tap.go:104-123 | each of the four counts is the last positive one among the lines not too long |
| UsageTap.UnreportedIsZero | internal/router/anthropic_usage_tap.go:104-123 | and zero when no such line reports a positive one |
| UsageTap.SilentIff | internal/router/anthropic_usage_tap.go:165-169 | nothing is reported exactly when no line within the limit reports usage |
| UsageTap.LineReports | internal/router/anthropic_usage_tap.go:125-150 | a line reports usage if and only if it starts with data:, mentions message_start or message_delta and decodes to one of them, and then the message's or its own |
| UsageTap.TrimIs | internal/router/anthropic_usage_tap.go:126 | what is trimmed of a line is every carriage return at its end and nothing else |
| UsageTap.ContainsIff | internal/router/anthropic_usage_tap.go:131 | an event is mentioned if and only if its name stands somewhere in the line |
| UsageTap.BodyReports | internal/router/anthropic_usage_tap.go:152-171 | a plain body of at most 8 MiB that decodes reports its positive counts |
| GgufReader.HeaderRoundTrip | internal/servermanager/gguf.go:224-271 | a header within the limits reads back as exactly the key-values written, whatever follows it, and reading stops exactly at its end |
| GgufReader.PrefixesAreRejected | internal/servermanager/gguf.go:62-72 | every strict prefix of a header is rejected |
| GgufReader.ItemRoundTrip | internal/servermanager/gguf.go:106-145 | the bytes of every scalar type denote its normal form, two's complement included |
| GgufReader.RecoveredIff | internal/servermanager/gguf.go:137-140 | the bytes of an integer are read back as that integer if and only if it is not an unsigned 64-bit one of 2^63 or more |
| GgufReader.ArraysRecovered | internal/servermanager/gguf.go:170-221 | arrays of integers and of bools come back element by element |
| GgufLayout.ScalarDenotes | internal/servermanager/gguf.go:106-146 | for each type tag, by number, how many bytes a scalar takes and what they denote, byte by byte, lowest first |
| GgufLayout.BytesFound | internal/servermanager/gguf.go:62-72 | reading n bytes gives them, or fails beyond 256 MiB of header or beyond the end of the file |
| GgufLayout.ScalarFound | internal/servermanager/gguf.go:106-146 | a scalar is read at its place by its type, and an unknown type is refused |
| GgufLayout.StringFound | internal/servermanager/gguf.go:90-104 | a string is its length in 8 bytes and then its bytes, refused beyond 16 MiB, beyond the header limit, and when it is cut short |
| GgufLayout.ValueFound | internal/servermanager/gguf.go:148-168 | where a value of each type starts and ends; long and nested arrays are refused |
| GgufLayout.ArrayFound | internal/servermanager/gguf.go:170-222 | an array is normalised to strings, bools, floats or integers by the type of its elements |
| GgufLayout.PairFound | internal/servermanager/gguf.go:240-270 | a key, the type of its value in 4 bytes, and the value |
| GgufLayout.HeaderFound | internal/servermanager/gguf.go:224-270 | the letters GGUF, the number of keys in bytes 16 to 24, refused beyond 1 Mi, and the keys from byte 24 |
| GgufFormat.HeaderWithinBounds | internal/servermanager/gguf.go:62-72 | on any file, a header that is read ends within the file and within the header limit |
| GgufFormat.HeaderAgrees | internal/servermanager/gguf.go:224-271 | the reader looks at nothing beyond the header: a longer file reads alike |
| GgufReader.Reader.ReadMetadata | internal/servermanager/gguf.go:224-271 | the loops over keys compute that reading, or its error |
| GgufReader.Reader.AnyValue | internal/servermanager/gguf.go:148-168 | a value of any type tag, the limits on lengths and every error included |
| RegistryProtocol.StepKeeps | internal/registry/registry.go:178-228 | every step of every goroutine keeps the invariant of the probe protocol |
| RegistryProtocol.ReachableIsSafe | internal/registry/registry.go:178-228 | the invariant holds in every reachable state of every interleaving |
| RegistryProtocol.OneFetchAtATime | internal/registry/registry.go:178-228 | at most one fetch of an endpoint is running in any reachable state |
| RegistryProtocol.ClosedOnceAfterStore | internal/registry/registry.go:195-200 | a channel is closed once, by its maker, after a status has been stored |
| RegistryProtocol.WokenFindsStatus | internal/registry/registry.go:180-193 | a waiter that is woken finds a status |
| RegistryProtocol.NobodyWaitsInVain | internal/registry/registry.go:180-193 | a waiter's open channel belongs to a goroutine with a step to take towards closing it |
| RegistryProtocol.WaitsUntil | internal/registry/registry.go:183-191 | a goroutine stops waiting only when its channel is closed or its own caller has hung up |
| RegistryProtocol.CancellationIsInvisible | internal/registry/registry.go:183-211 | without all the callers that hang up, the one that started a fetch among them, and the waiters that give up, the rest of any run is a run and ends with the same statuses, fetches, stores and channels |
| RegistryProtocol.StepKeepsLog | internal/registry/registry.go:213-227 | every step keeps the status of a name the latest of those stored for it, and what was stale when a goroutine looked stale |
| RegistryProtocol.FetchesFreshIffStoredSince | internal/registry/registry.go:140-142 | in every reachable state, a goroutine that found a status stale starts a fetch while it is fresh if and only if a status of that endpoint still younger than the time to live has been stored since it looked |
| RegistryProtocol.OnlyConfiguredAreFetched | internal/registry/registry.go:128-139 | an unconfigured name never starts a fetch |
| RegistryProtocol.FetchedAgainWhileFresh | internal/registry/registry.go:140-142 | a concrete run in which that happens |
| Registry.ProxyRegistry.LookupModel | internal/registry/registry.go:128-150 | one lookup alone: the answer, the status afterwards and whether it fetched, for every id |
| Registry.ProxyRegistry.Snapshot | internal/registry/registry.go:59-89 | one snapshot alone: every configured endpoint up to date, in configured order |
| Registry.ParseRoundTrip | internal/registry/registry.go:132-135 | a name without a slash and a model, joined, are taken apart again |
| Registry.ParseIff | internal/registry/registry.go:132-135 | an id names an endpoint and a model if and only if its first slash has something before and something after it |
| Registry.FreshAlike | internal/registry/registry.go:168-176 | a lone caller and the protocol take a status for fresh alike: while it is younger than the time to live |
| Metrics.ProxyMetrics.End | internal/router/status_metrics.go:483-524 | the first end takes the request out of the active set and records it; a second changes nothing; active stays exactly begun minus ended |
| Metrics.ProxyMetrics.Begin | internal/router/status_metrics.go:443-477 | a request is numbered, made active and counted; an unknown body length counts as none |
| Metrics.ProxyMetrics.NoteHeader | internal/router/status_metrics.go:292-309 | only the first header of a response is recorded |
| Metrics.ProxyMetrics.NoteAttempt | internal/router/status_metrics.go:285-290 | one more attempt is recorded on that request and nothing else changes |
| Metrics.ProxyMetrics.NoteWrite | internal/router/status_metrics.go:315-325 | bytes are added to the connection and to the total, which stays the sum over all connections ever begun |
| Metrics.ProxyMetrics.NoteRead | internal/router/status_metrics.go:340-349 | the same for bytes a client sends on an upgraded connection |
| Metrics.ProxyMetrics.Snapshot | internal/router/status_metrics.go:585-606 | the recent list is exactly the last requests that ended, at most 64, newest first, and the active count is begun minus ended |
| Metrics.RingStep | internal/router/status_metrics.go:515-522 | one more record keeps the ring at the last 64, before and after it wraps around |

## Left out

- Integer width: sizes, counters and token counts are unbounded integers; overflow of the source's int64 fields is not modelled, except where a .gguf value is reinterpreted as signed.
- Time: a clock is an integer that never goes back; the grace period of a stop, health-poll intervals and timer goroutines are not modelled, a timeout may strike at any step.
- Processes: starting one, signals, ports and health polling are outcomes that may be any; which error a launch gives, and the recorded load errors, are not modelled.
- Several atomic reads inside one critical section count as one instant; a process exit falls before or after the section, not between two reads of it.
- `encoding/json`: decoding is a parameter of the translator, the tap and the merge; for the splice the validity check may reject any text (it limits nesting), and a decoded key is a sequence of UTF-16 units and raw bytes, which decides equality with an ASCII name as the library does.
- Encoding the new model name is a parameter of the splice: any valid JSON string.
- ServerManager.Manager.Acquire: runs alone, so its waits end in the deadline; interleavings are the subject of `AdmissionRuns`.
- RequestTranslation.AnthropicToOpenAI: only messages and the refusals; sampling parameters, tool schemas, tool choice and the affinity key are copied field by field in the source and not modelled. How the content of a tool result renders to text, and whether an image can be sent, are parameters.
- StreamTranslator.Translator.BuildMessage: generated ids are one symbol, so two renderings are compared up to them; a tool's input is its JSON text.
- ResponseWriter.TranslatingResponseWriter.Finish: the mapping of an error text to its Anthropic type and wording is not modelled, only that the whole text and the status reach it. The client's connection is as net/http documents it: 101 and 200 to 999 are final, other 1xx statuses interim, anything else panics, and 1xx, 204 and 304 allow no body. Response headers are left out.
- ResponseWriter.TranslatingResponseWriter.PingTick: the ticker goroutine is one call that may come at any time between the start of a stream and its end.
- Affinity.VirtualAffinityStore.Record: a capacity of zero and a missing store are left out; production uses neither. Entries are values of the map, replaced rather than updated through a pointer.
- VirtualWalk.RouteVirtualWith: one attempt is its outcome (wrote, status, failed); proxying, labels, log lines and failure messages are left out. `VirtualWalk.ResponseRecorder` covers how an attempt's writes are seen.
- VirtualRuns.ConversationSticks: a walk touches nothing shared until it records, so its attempts and its record are one step, taken when the record is made; a request that never ends stays open.
- VirtualTargets.CandidatesForVirtual: the reordering theorem assumes that a name has one configuration among the statuses, as the registry's table by name guarantees.
- VirtualParams.ApplyVirtualParams: a JSON object is a map; which of two equal keys a decoder keeps, and the sorting of the reported paths, are left out.
- Registry.ProxyRegistry.LookupModel: runs alone; interleavings are the subject of `RegistryProtocol`, where a snapshot is several lookups. Model lists and the union for `/v1/models` are left out.
- Metrics.ProxyMetrics.Snapshot: connections are values in one table instead of separately allocated records with atomic fields, so totals are compared between calls, not in the middle of one; per-connection rows, their sorting by id, states, token totals and the rolling rates are left out.
- GgufReader.Reader.ReadMetadata: floats are kept as their bits; memory estimates computed from the metadata (KV cache, weights, MLX) are left out as floating-point formulas.
- Dispatch of the HTTP routes, model listing, configuration, authentication, launch handshake, dashboard and TLS are left out.

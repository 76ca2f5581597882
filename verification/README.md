# Verification of the support agent's protocols

This project models the durable-claim protocols and the rebuild-and-reconcile algorithms of the repository, and proves
what they promise over every interleaving, replay, lost answer and crash point.

- **Staff bookings** (`BookingContracts`, `StoreOps`, `StaffDatabase`, `StaffProtocol`, `StaffOutcomes`, `Availability`): booking intents and
  their transitions, the card that announces a booking to staff, the callback that answers it in one transaction, the
  compare-and-set on the delivery columns before every external call, and daily availability under optimistic locking.
- **Inbound messages** (`WeComInbound`, `WeComCore`, `WeComOutcomes`; `WeComCustomer`, `CustomerRouting`, `CustomerLoop`,
  `CustomerAnswers`, `CustomerRefinement`): claim, attach or route, run the agent, send, finish.
- **The agent runtime** (`SupportStore`, `SupportRuntime`, `SupportOutcomes`, `SupportHandoffs`, `SupportLeaks`, `EvidenceRuntime`): ticket and handoff
  reservations of concurrent runs that share a store, with late continuations of timed-out tools; the evidence a turn may cite.
- **Evaluation gates** (`SemanticTraces`, `SemanticStatistics`, `SemanticEvaluation`, `DurableJournal`, `HoldoutEvaluation`,
  `HoldoutCounts`, `HoldoutRecovery`, `ReportPublication`, `ReportOutcomes`, `CanonicalJson`, `HarnessRuns`): live evaluators, the append-only journal, rebuilding a
  report from it, resuming after a crash, publishing the report, and the harness's run and integrity check.
- **Retrieval** (`RagChunks`, `RagRanking`, `RagReconcile`, `RagAnswers`, `RagRegistry`, `RagPipeline`): chunks computed alike in two
  languages, exact cosine ranking, the registry's locks and generations, and what the Node side accepts from the service.
- **Framing** (`Framing`): the plaintext inside a WeCom callback, with its padding (section 6.3 of RFC 5652).

How it is built: a transaction is a function on the rows it touches; where the source changes rows, files or locals in place,
a class or a loop does it step by step and is proved to land where the function says. A protocol is a transition system: each
committed transaction is one step, each external call one step with an arbitrary answer, and a call may stop between any two
steps. `Run` folds the steps, and the main results speak of `Run(Init, steps)` for every list of steps. What one operation
answers and leaves is stated beside them without naming its body: over rows, fields and answers (`…IsAnswered`, `…IsExact`,
`…Exactly`), or for a call that runs with no other in between (`…Alone`). `Wrappers` holds shared
types, equalities of sequences, and the order of strings.

## Model

| member | source | states |
|---|---|---|
| BookingContracts.ResolveExactly | src/storeops/contracts.ts:188-214 | a parsed transition request resolves exactly along the status diagram, to the status its action names, with the very pair of the request or the stored alternative, and with a conflict for every move that is not on it |
| BookingContracts.ParsesExactly | src/storeops/contracts.ts:120-187 | a request parses if and only if its version is positive and safe and its times are an ordered pair or absent, as its action wants them; its fields are taken over |
| BookingContracts.ParseWindows | src/storeops/contracts.ts:127-156 | the one pass against the previous end accepts exactly the lists of at most 24 readable, non-empty windows that are pairwise disjoint and in order, and returns them unchanged |
| StoreOps.TransitionKeepsInvariant | src/storeops/postgres.ts:209-267 | a committed transition names the row's version, raises it by one, and leaves the times its new status promises |
| StoreOps.AgentAuthority | src/storeops/postgres.ts:216-234 | an agent can only cancel, and only a pending booking that its own membership created |
| StoreOps.TransitionIsAnswered | src/storeops/postgres.ts:209-267 | each refusal of a transition has its own condition over the rows, and a request that meets none moves its booking to the status, times and version it names |
| StaffDatabase.Tables.TransitionBookingIntent | src/storeops/postgres.ts:209-267 | the row update lands exactly on the specified row, or refuses with the specified error and changes nothing |
| StaffDatabase.Tables.CreateBookingIntent | src/storeops/postgres.ts:142-207 | an idempotency key creates one pending booking, returns it again for the same request, and conflicts for another |
| StaffDatabase.CreateIsAnswered | src/storeops/postgres.ts:142-207 | what a create request is answered, and the row it leaves, read off the earlier rows |
| StaffDatabase.Tables.InsertNotification | src/channels/wecom/staff.ts:97-160 | a pending booking with one recipient gets one task under its unique key; otherwise nothing changes |
| StaffDatabase.NotificationIsAnswered | src/channels/wecom/staff.ts:97-160 | each refusal and each way out of announcing a booking has its own condition, and the task inserted is addressed by the booking and its recipient |
| StaffDatabase.RecipientIsExact | src/channels/wecom/staff.ts:124-139 | the recipient is the one manager binding of the preferred membership, or if that has none the one manager binding of the store, or nobody |
| StaffDatabase.Tables.ClaimAndTransition | src/channels/wecom/staff.ts:185-278 | an identical redelivery is a duplicate and an altered one a conflict, neither changing a row; every other refusal has its own condition over the rows; otherwise the claim and the transition commit together |
| StaffDatabase.CallbackIsAnswered | src/channels/wecom/staff.ts:185-278 | the same of the callback step of the protocol |
| StaffDatabase.Tables.ClaimDelivery | src/channels/wecom/staff.ts:301-317 | the compare-and-set takes a delivery column that is still not_sent, and only that |
| StaffProtocol.ClaimsAreSettled | src/channels/wecom/staff.ts:191-278 | in every run no committed claim is processing, and a claim is completed exactly when its callback committed one move of its own booking from the announced version to the next |
| StaffProtocol.OneWinnerPerBooking | src/channels/wecom/staff.ts:191-278 | over all applications and cards at most one staff callback ever moves a booking |
| StaffProtocol.OneMovePerVersion | src/storeops/postgres.ts:235-259 | in every run, of all requests and callbacks that name one version of a booking at most one moves it |
| StaffProtocol.SettledStays | src/storeops/postgres.ts:209-267 | whatever follows, a cancelled booking never changes again, and a confirmed one keeps its times and can only be cancelled |
| StaffProtocol.ReplayChangesNothing | src/channels/wecom/staff.ts:191-278 | once a task has a claim, a callback for it, replayed or altered, changes nothing and starts nothing at any later time |
| StaffProtocol.BookingHistory | src/storeops/postgres.ts:235-259 | a booking's version less one counts its committed transitions, at most three; it is pending exactly at version 1; confirmed carries an ordered pair, the stored alternative if one was proposed |
| StaffProtocol.OneCardPerBooking | src/channels/wecom/staff.ts:116-182 | across retries and crashes a booking is announced by at most one card per staff application |
| StaffProtocol.DeliveriesAreHonest | src/channels/wecom/staff.ts:285-352 | each task has at most one card, one feedback update and one customer message, and a column names an answer only if that one call gave it |
| StaffProtocol.ColumnsNeverReturn | src/channels/wecom/staff.ts:301-317 | a delivery column that left not_sent never returns to it, and a claim is never rewritten |
| StaffProtocol.CustomerWasToldTheTruth | src/channels/wecom/staff.ts:318-352 | a customer message follows a completed claim, the start it names stays the booking's start, and a cancellation it names is final |
| StaffProtocol.FeedbackReportsTheClaim | src/channels/wecom/staff.ts:279-292 | the card feedback is a conflict exactly for a failed claim, and otherwise the committed action and the version it produced |
| StaffOutcomes.AnsweredAlone | src/channels/wecom/staff.ts:279-352 | after a callback committed, with no other call in between: which of feedback and customer message are sent, with which text, and what each column holds in the end, for every pattern of failing statements and answers |
| StaffOutcomes.AnnouncedAlone | src/channels/wecom/staff.ts:161-182 | the card is sent once, and its column names the answer if and only if that was definite and its recording committed |
| Availability.AvailabilityTable.PutAvailability | src/storeops/postgres.ts:102-140 | the insert or guarded update lands on the specified row, or refuses with the specified error and changes nothing |
| Availability.PutIsAnswered | src/storeops/postgres.ts:102-140 | each refusal of a write has its own condition over the rows, and a write that meets none stores the request under the next version |
| Availability.NoLostUpdate | src/storeops/postgres.ts:102-140 | in every run a day's version counts its committed writes, each of which replaced the version its writer had read, and its windows are in order and disjoint |
| Availability.OneWriterPerVersion | src/storeops/postgres.ts:123-133 | of the writers that read the same version of a day at most one commits |
| WeComInbound.InboundTable.ClaimMessage | src/channels/wecom/postgres.ts:16-33 | the insert claims a new key, and otherwise tells a duplicate from a conflicting payload without changing a row |
| WeComInbound.InboundTable.AttachConversation | src/channels/wecom/postgres.ts:71-123 | a message is attached exactly when the conversation fits its identity and no other active message or binding stands in the way |
| WeComInbound.AttachIsExact | src/channels/wecom/postgres.ts:71-123 | the conditions for attaching, field by field over the rows |
| WeComInbound.ResolvesExactly | src/channels/wecom/postgres.ts:35-69 | an identity resolves if and only if it is the sender's only active binding, to a user with one membership, and carries that binding's fields |
| WeComCore.AtMostOnce | src/channels/wecom/core.ts:149-237 | per message the agent starts at most once, send is called at most once, and only after the agent started |
| WeComCore.WriteAheadHonesty | src/channels/wecom/core.ts:200-236 | at every step not_sent means send was never called, sent means it returned normally, and a failed message never started the agent |
| WeComCore.ConversationsAreExclusive | src/channels/wecom/core.ts:183-198 | at most one message attached to a conversation is processing or indeterminate, and all of them share one binding, so the conflict over several bindings at src/storeops/postgres.ts:161 is unreachable |
| WeComCore.DispatchIsExclusive | src/channels/wecom/core.ts:183-216 | two calls never have an agent or a send under way in the same conversation |
| WeComCore.AnsweredInScope | src/channels/wecom/postgres.ts:71-123 | the agent only answers in a conversation of the identity's own tenant and store, for that conversation's customer |
| WeComCore.TerminalRowsStay | src/channels/wecom/postgres.ts:133-145 | a completed, failed or indeterminate message never changes again |
| WeComCore.IndeterminateBlocksForever | src/channels/wecom/postgres.ts:89-96 | after an indeterminate message the agent is never started in that conversation again |
| WeComOutcomes.HandledAlone | src/channels/wecom/core.ts:149-237 | one handle call with no other in between leaves exactly the row and the effects that its own answers give it, a message already there changing nothing |
| WeComCustomer.RouterTable.Resolve | src/channels/wecom/customer.ts:77-154 | a known contact keeps its conversation, a new one gets a binding and a conversation, and an unauthorized channel gets nothing |
| CustomerRouting.AtMostOnce | src/enterprise/http-api.ts:269-341 | over any number of concurrent callbacks and crashes a message starts the agent at most once and sends at most once |
| CustomerRouting.TerminalStatesAreHonest | src/channels/wecom/customer.ts:156-195 | completed means the platform took the text and echoed its id; failed means it was never sent or counted as rejected; indeterminate means the answer was unclear or the completion was not saved |
| CustomerRouting.FailedButDelivered | src/channels/wecom/client.ts:113-155 | a failed message reached the customer if and only if the platform answered errcode 0 with a malformed message id |
| CustomerRouting.DeliveredYetFailed | src/channels/wecom/client.ts:152 | such a run |
| CustomerRouting.TerminalRowsStay | src/channels/wecom/customer.ts:173-195 | a terminal row never changes again |
| CustomerRouting.ContactsKeepTheirConversation | src/channels/wecom/customer.ts:77-154 | contacts and conversations stay paired, and a contact keeps the conversation of its first message |
| CustomerRouting.OneConversationPerCustomer | src/channels/wecom/customer.ts:77-154 | two messages are answered in the same conversation if and only if they come from the same customer over the same channel |
| CustomerLoop.RouteTexts | src/enterprise/http-api.ts:236-356 | the loop lands on the specified table, and its thirteen counters count the endings it went through |
| CustomerLoop.Conservation | src/enterprise/http-api.ts:256-356 | messages = claimed + duplicates + conflicts, claimed = unbound + routeAttachFailed + routingErrors + routed, routed = executionErrors + accepted + rejected + indeterminate, accepted = completed + completionPersistFailed |
| CustomerLoop.CompletedIsHonest | src/enterprise/http-api.ts:317-341 | with acknowledgements lost the completed counter may fall short of the completed rows, which never exceed the accepted sends |
| CustomerAnswers.EndingIsExact | src/enterprise/http-api.ts:269-341 | each of the eleven endings of a message has its own condition over the table, the channel and the answers, exactly one of which holds, and says in what state the row is left |
| CustomerAnswers.LoopEndsExactly | src/enterprise/http-api.ts:256-356 | in the loop each message ends as the table it meets, its channel and its own answers say |
| CustomerAnswers.CountersAreExact | src/enterprise/http-api.ts:236-255 | each counter is the number of messages that ended so, or that got so far |
| CustomerRefinement.HandleIsARun | src/enterprise/http-api.ts:269-341 | handling one message, whatever is answered, is a run of the transition system that ends in the same table and directory and leaves the other calls alone |
| CustomerRefinement.LoopIsARun | src/enterprise/http-api.ts:256-356 | so is the loop over any messages, from any state it finds |
| SupportStore.MemoryKeyDecides | src/index.ts:151-230 | two tickets share an in-memory key if and only if they share tenant and idempotency key, or one tenant id continues the other with a colon and the idempotency keys make up for the difference |
| SupportStore.KeysCollideExactly | src/index.ts:151-230 | two different tenants can share an in-memory key if and only if one tenant id continues the other with a colon |
| SupportStore.InMemorySupportStore.CreateTicket | src/index.ts:190-198 | the store keeps the first ticket of a key, gives up its reservation, and counts the attempt |
| SupportRuntime.OneHandoffPerConversation | src/index.ts:1238-1266 | in every run a conversation has at most one in-memory handoff |
| SupportRuntime.MemoryAgreesWithTables | src/index.ts:1213-1266 | every in-memory ticket and handoff agrees with its durable row |
| SupportRuntime.WorkflowMeansTicket | src/real-policy.ts:45-53 | a run that reports a created ticket has a durable one for its tenant under a key it reserved itself |
| SupportRuntime.EscalationMeansHandoff | src/real-policy.ts:38-45 | a run that reports a handoff outside the safety path has a durable one for its conversation |
| SupportRuntime.FinishedRunsAreDecided | src/real-policy.ts:30-60 | each decision and result type has its exact condition over the facts of a finished run; what needs a human is never answered automatically outside safety, and a reported ticket or handoff is durable |
| SupportRuntime.FinishReadsTheStore | src/index.ts:702-753 | a run is told of a ticket or handoff exactly if it reserved one that is in the store, and gives back exactly the reservations whose effect is not |
| SupportOutcomes.TicketAlone | src/index.ts:593-605 | with no other call in between a ticket call is blocked exactly if its key is taken, and otherwise leaves one ticket in table and memory, its reservation given up |
| SupportOutcomes.HandoffAlone | src/index.ts:606-623 | the same for a handoff call and its conversation |
| SupportOutcomes.SafetyAlone | src/index.ts:860-879 | the safety handoff is blocked by the memory alone, and keeps the reason a durable row already has |
| SupportOutcomes.TicketCutShort | src/index.ts:702-753 | a run that expires between reservation and write gives the key back and leaves no ticket |
| SupportOutcomes.EndsExactly | src/index.ts:660-703 | a run ends only once, and unless it expired only when every tool call of it has begun to write |
| SupportRuntime.ReservationsAreExclusive | src/index.ts:575-625 | two open runs never hold the same key of a tenant, nor the same conversation's handoff |
| SupportRuntime.OnlyLateReservationsLeak | src/index.ts:702-753 | once every run is over, whatever is still reserved was taken by a run that was already over |
| SupportRuntime.LateReservationLeaks | src/index.ts:593-605 | the reservation taken when a ticket lookup answers has no open holder if and only if its run was sealed by then |
| SupportRuntime.StuckForever | src/index.ts:593-605 | a leaked ticket key stays reserved, and no ticket is ever created under it |
| SupportRuntime.ClosedDuringLookup | src/index.ts:593-605 | a run that leaks a ticket key |
| SupportLeaks.LeakedForGood | src/index.ts:593-605 | the ticket key reserved when a lookup answers is never given back, whatever happens, if and only if its run was sealed by then and no earlier call is still writing a ticket under that key |
| SupportHandoffs.OnlyLatePlacesLeak | src/index.ts:702-753 | the same for handoffs: only late reservations are left over |
| SupportHandoffs.LatePlaceLeaks | src/index.ts:606-623 | the handoff reserved when a lookup answers has no open holder if and only if its run was sealed by then |
| SupportHandoffs.StuckForever | src/index.ts:606-623 | the conversation of a leaked reservation never gets a handoff, in memory or durable |
| SupportHandoffs.ClosedDuringLookup | src/index.ts:606-623 | a run that leaks a handoff reservation |
| SupportLeaks.PlaceLeakedForGood | src/index.ts:606-623 | the handoff reserved when a lookup answers is never given back if and only if its run was sealed by then and no earlier call is still writing the conversation's handoff |
| EvidenceRuntime.TurnState.CallTool | src/index.ts:575-592 | the locals of a run change as the specified turn does, for every tool call |
| EvidenceRuntime.ToolBudget | src/index.ts:575-592 | for every sequence of tool calls, uncached tool executions never exceed maxToolCalls |
| EvidenceRuntime.EvidenceIsLatest | src/index.ts:455-562 | the evidence of a turn is what the latest evidence-setting search authorized out of the entries it found, or out of those the first search for its query found when it was cached |
| EvidenceRuntime.CitedAnswersAreGrounded | src/index.ts:830-989 | an answer with evidence cites one reference and carries the text of one entry that a search of this turn returned, with knowledge of the request's tenant and store or of all, approved or, where that is allowed, synthetic |
| EvidenceRuntime.AuthorizedExactly | src/index.ts:1120-1145 | a search authorizes an entry if and only if it is the only one found that may be cited for the request; with none or several it authorizes nothing |
| EvidenceRuntime.MatchExactly | src/knowledge.ts:101-118 | an FAQ match is authorized if and only if it may be cited for the request |
| EvidenceRuntime.FlagsAreExact | src/index.ts:500-590 | a turn has failed, expired, missed or hit its limit if and only if some event of it did that |
| EvidenceRuntime.GroundIsExact | src/index.ts:455-562 | routing, verification and the lack of evidence at the end of a turn, read off its searches |
| EvidenceRuntime.CascadeIsExact | src/index.ts:830-989 | each way a turn can end has its own condition over its flags, its evidence and the last text, exactly one of which holds |
| EvidenceRuntime.CitedInTimeIsCurrent | src/index.ts:932-946 | an answer given in time cites entries that, read again now, are those the latest evidence-setting search authorized, whatever was edited in between, and no tool failed and no limit was hit |
| SemanticTraces.ShuffleSorts | evals/selection/semantic/evaluation.ts:409-417 | sorting any shuffle of numbered traces by sequence gives them back in order |
| SemanticTraces.ShowsExactly | evals/selection/semantic/evaluation.ts:113-119 | the candidates are shown under A, B, C in their order or in reverse |
| SemanticStatistics.SummarizeTraces | evals/selection/semantic/evaluation.ts:193-213 | the loop computes the specified summary |
| SemanticStatistics.OutcomesAreCounted | evals/selection/semantic/evaluation.ts:193-213 | the summary counts every outcome once, under its own order |
| SemanticStatistics.ShapesAreCounted | evals/selection/semantic/evaluation.ts:193-213 | a raw output shape is listed if and only if a trace has it, with the number of those traces |
| SemanticStatistics.LatencyIsExact | evals/selection/semantic/evaluation.ts:179-188 | minimum and maximum bound every time, and p50 and p95 are nearest-rank percentiles of the times, whatever their order |
| SemanticEvaluation.RunEvaluation | evals/selection/semantic/evaluation.ts:215-295 | the loops compute the specified report, with two calls per multi-candidate case; each counter is a number of cases, and the gate passes if and only if the counts say so |
| SemanticEvaluation.Reconstruct | evals/selection/semantic/evaluation.ts:353-483 | the rebuild's loops over maps and sets compute the specified rebuild of a journal, blocked, complete or thrown, for cases of any number of candidates; the counters and the gate of a complete one are read off the recorded traces |
| SemanticEvaluation.LiveReportIsExact | evals/selection/semantic/evaluation.ts:215-295 | each metric of the live report is a number of cases, or a quotient of two, picked out by what the selector answered in the two orders |
| SemanticEvaluation.CountsConserve | evals/selection/semantic/evaluation.ts:228-266 | the correct and the wrong cases make up the selected ones, these and the abstained ones all cases, and the wrong multi-candidate cases are among the wrong |
| SemanticEvaluation.RebuiltReportIsExact | evals/selection/semantic/evaluation.ts:427-483 | the same for a rebuilt report and the recorded traces, single candidates counting as right |
| SemanticEvaluation.GateIsExact | evals/selection/semantic/evaluation.ts:337-347 | the gate passes if and only if there is a case, 98 of 100 are right, none is wrong or misled by the order of its candidates, and no answer is invalid |
| SemanticEvaluation.TraceIsExact | evals/selection/semantic/evaluation.ts:121-177 | a trace records the candidates shown, the outcome, and the candidate the answered tag stands for, judged against the gold |
| SemanticEvaluation.MatchesExactly | evals/selection/semantic/evaluation.ts:297-336 | a persisted trace is accepted if and only if it shows the case's candidates and names one of them as it was shown |
| SemanticEvaluation.CompleteIsExact | evals/selection/semantic/evaluation.ts:353-426 | a rebuild is blocked if and only if the journal does not have every invocation exactly once, matching, numbered 1 to 2N without a gap or a repeat; it then throws if and only if a case has no candidate |
| SemanticEvaluation.RebuildEqualsLive | evals/selection/semantic/evaluation.ts:353-483 | from any shuffle of the journaled traces the rebuild is complete if and only if every case has a candidate, and equals the live report (metrics, traces, summary, latency, verdict) if and only if in addition every single-candidate case holds its gold |
| SemanticEvaluation.WrongSingleIsForgiven | evals/selection/semantic/evaluation.ts:427-431 | a case set on which the two reports differ |
| DurableJournal.Journal.WriteAll | evals/selection/semantic/durable-journal.ts:52-56 | the offset loop appends exactly the bytes that the successive writes took |
| DurableJournal.Read | evals/selection/semantic/durable-journal.ts:185-207 | the reading loop returns the specified reading |
| DurableJournal.CrashedAppend | evals/selection/semantic/durable-journal.ts:185-207 | an append that dies at any byte leaves a file that reads as before, with the leftover flagged |
| DurableJournal.CompletedAppend | evals/selection/semantic/durable-journal.ts:185-207 | a completed append is read back if and only if the file was not a lone newline |
| DurableJournal.EveryCrashPoint | evals/selection/semantic/durable-journal.ts:185-207 | for every byte at which the process dies, a read returns exactly the whole records before it and flags leftover bytes |
| DurableJournal.ResumesAtRecordEnds | evals/selection/semantic/durable-journal.ts:140-156 | a journal that died at byte k resumes if and only if k is the end of a record |
| DurableJournal.Journal.Append | evals/selection/semantic/durable-journal.ts:113-127 | a trace is written, remembered and refused as the checks say, and a file that held the recorded traces still does |
| DurableJournal.Resume | evals/selection/semantic/durable-journal.ts:140-182 | resuming succeeds exactly when the specified checks do, with the traces in file order and the sets that refuse them |
| DurableJournal.RefusalIsExact | evals/selection/semantic/durable-journal.ts:72-121 | a trace is refused as invalid, as a duplicate or for its number, in that order, each exactly on its condition |
| DurableJournal.ResumeRefusalIsExact | evals/selection/semantic/durable-journal.ts:140-182 | resuming is refused for a missing file, a final report, a leftover or a gap in the numbers, in that order, each exactly on its condition |
| DurableJournal.TornThenAppended | evals/selection/semantic/durable-journal.ts:113-127 | an append after a torn one shares its line: what is read hangs on whether both together are a trace |
| DurableJournal.UnsyncedRetry | evals/selection/semantic/durable-journal.ts:122-125 | after a failed fsync the trace is in the file, and a second append of it makes every read refuse the file |
| DurableJournal.UnsyncedThenAppended | evals/selection/semantic/durable-journal.ts:113-127 | any other trace the journal then takes leaves the file readable if and only if it shares neither the invocation nor the number of the one already there |
| DurableJournal.FailedThenAppended | evals/selection/semantic/durable-journal.ts:113-127 | wherever an append fails, the next one leaves the file readable exactly if the whole line is there and that holds, or only part of it is and that part and the next line make one acceptable trace |
| DurableJournal.BrokenForGood | evals/selection/semantic/durable-journal.ts:185-207 | an unreadable file stays unreadable, whatever is appended |
| HoldoutEvaluation.RunHoldout | evals/selection/semantic/holdout-v2.1-evaluation.ts:210-237 | the run merges its traces into the existing ones, and computes the specified metrics and verdict, or stops at the first case of the wrong size |
| HoldoutEvaluation.MetricsFromTraces | evals/selection/semantic/holdout-v2.1-evaluation.ts:148-186 | the loops over counters and maps compute the specified tallies |
| HoldoutEvaluation.RebuildIgnoresOrder | evals/selection/semantic/holdout-v2.1-evaluation.ts:270-334 | rebuilding does not depend on the order of the journal |
| HoldoutEvaluation.CompleteIsExact | evals/selection/semantic/holdout-v2.1-evaluation.ts:270-334 | a rebuild is complete if and only if the journal has every invocation exactly once, matching, numbered without gaps |
| HoldoutEvaluation.RebuildEqualsRun | evals/selection/semantic/holdout-v2.1-evaluation.ts:270-334 | from any shuffle of a run's journal the rebuild is that run's report |
| HoldoutEvaluation.GateIsExact | evals/selection/semantic/holdout-v2.1-evaluation.ts:188-208 | the gate passes if and only if every invocation of every case was answered as expected, over the counters, the traces and the selector's answers alike |
| HoldoutCounts.MetricsAreCounts | evals/selection/semantic/holdout-v2.1-evaluation.ts:148-186 | each counter is the number of traces with its outcome or verdict in its order, or of cases whose two orders differ |
| HoldoutEvaluation.TraceIsExact | evals/selection/semantic/holdout-v2.1-evaluation.ts:86-143 | a trace records the candidates shown, the outcome, and the candidate the answered tag stands for, judged against the gold or the expected abstention |
| HoldoutEvaluation.MatchesExactly | evals/selection/semantic/holdout-v2.1-evaluation.ts:239-269 | a persisted trace is accepted if and only if it shows the case's candidates and names one of them as it was shown |
| HoldoutRecovery.SessionsAreOneRun | evals/selection/semantic/run-holdout-v2-1-gate.ts:170-216 | after any number of sessions, wherever each died, the file is a byte prefix of one uninterrupted run's journal, every answer of which some session gave |
| HoldoutRecovery.InterruptedEqualsUninterrupted | evals/selection/semantic/holdout-v2.1-evaluation.ts:210-237 | reading the file succeeds with the first traces of that run, and once all are there the rebuilt report is that run's |
| HoldoutRecovery.UncutSessionFinishes | evals/selection/semantic/run-holdout-v2-1-gate.ts:170-216 | a session that resumes and is not cut short finishes the journal |
| ReportPublication.FinalIsComplete | evals/selection/semantic/durable-journal.ts:219-256 | at every moment the destination is absent or holds one publisher's whole report |
| ReportPublication.FinalNeverChanges | evals/selection/semantic/durable-journal.ts:219-256 | a published report is never replaced or altered |
| ReportPublication.OnePublisherReturns | evals/selection/semantic/durable-journal.ts:219-256 | at most one publisher returns normally, its report is the one published, and its temporary name is gone |
| ReportPublication.ThrewIsExact | evals/selection/semantic/durable-journal.ts:232-254 | a publisher that throws has published its report if and only if what threw was the removal of the temporary name, or a link that had already been made |
| ReportPublication.PublishedYetThrew | evals/selection/semantic/durable-journal.ts:232-254 | such a run |
| ReportOutcomes.PublishedAlone | evals/selection/semantic/durable-journal.ts:219-256 | with no other publisher in between: over a published report it throws and changes nothing; otherwise it returns with its report published, or throws at the first operation that failed, leaving exactly the names and the file that its operations left |
| ReportOutcomes.BeatenToIt | evals/selection/semantic/durable-journal.ts:232-254 | a publisher that finds the destination taken when it looks again or links throws, removes its temporary name and leaves the published report |
| CanonicalJson.CanonicalizeValue | evals/job-ready-rag/freeze.ts:14-25 | the loops over items and sorted keys compute the canonical form |
| CanonicalJson.CanonicalDecides | evals/job-ready-rag/freeze.ts:14-30 | two values have one canonical form if and only if they are the same but for key order and undefined fields |
| CanonicalJson.CanonicalIsFixed | evals/job-ready-rag/freeze.ts:14-25 | a canonical form is the same value as the original and its own canonical form |
| CanonicalJson.HashDecides | evals/job-ready-rag/freeze.ts:36-39 | the population hash tells exactly those values apart, if the serializer and SHA-256 do so on canonical forms |
| HarnessRuns.RunSuite | harness/runner.ts:13-57 | a run is refused unless it matches its declaration, measures the cases in order up to the first failure or abort, and is complete exactly if there was neither |
| HarnessRuns.DeclareIsExact | harness/suites.ts:5-39 | a declaration is refused for the first of five conditions that fails, and otherwise names the cases in order |
| HarnessRuns.RunIsExact | harness/runner.ts:13-57 | a run measures the cases in order, each as its answer or as an error, up to the first error or the abort, and is complete if and only if there was neither |
| HarnessRuns.RunIssuesAreExact | harness/evaluate.ts:20-50 | the condition of each issue about the measurements, read off the run |
| HarnessRuns.EvaluateRun | harness/evaluate.ts:20-50 | for any report, well-formed or not, each issue is raised exactly on its condition, and there is none exactly if the report is the receipt's run, of the expected declaration, with every case measured once, in order, without error |
| HarnessRuns.OwnReceiptVerifies | harness/evaluate.ts:20-50 | a run is verified against its own receipt if and only if it was neither aborted nor met a failing service |
| HarnessRuns.VerifiedIsWhole | harness/evaluate.ts:20-50 | a verified report holds each declared case's answer, once and in order |
| RagChunks.ChunksFor | ai-service/rag_service/core.py:83-95 | the Python loop yields the chunks of the specification, or a conflict for a text of the wrong size or hash |
| RagChunks.CanonicalChunks | src/retrieval/fastapi.ts:251-275 | the Node loop over code points yields the same chunks |
| RagChunks.ChunksCoverDocument | ai-service/rag_service/core.py:83-95 | the chunks concatenate to the content; there are 1 to 8 of them, of 1 to 2000 code points |
| RagRanking.UnitDot | ai-service/rag_service/core.py:98-105 | the dot product of two normalized vectors lies in [-1, 1] in every dimension |
| RagRanking.ClampIsIdle | ai-service/rag_service/core.py:131 | the clamp never changes a score |
| RagRanking.RankCandidates | ai-service/rag_service/core.py:113-144 | the dictionary loop and the sort yield at most three candidates ranked from 1, by falling score and on ties rising document and chunk id; none of their documents has a better eligible chunk, and every document left out has none better than the third; refused exactly for an invalid profile, query or row |
| RagRanking.YieldsExactly | ai-service/rag_service/core.py:113-137 | a row is eligible if and only if its document is of the scope, approved, active and of a searchable kind, its chunk is the canonical one for the profile, and its plain cosine reaches the floor; that is its score |
| RagAnswers.RefusalIsExact | ai-service/rag_service/core.py:113-137 | a ranking is refused exactly if some row stops the scan, and for the reason of the first such row: a document in two versions, an unsound chunk or embedding, or a text of another size or hash |
| RagRanking.TopThreeIsUnique | ai-service/rag_service/core.py:133-144 | there is only one such result |
| RagRanking.RankIgnoresOrder | ai-service/rag_service/core.py:113-144 | success and result do not depend on the order of the rows |
| RagRanking.TopThreeAreDistinct | ai-service/rag_service/core.py:113-144 | the candidates are of distinct documents |
| RagReconcile.ValidateSearchResponse | src/retrieval/fastapi.ts:297-334 | the loop with its growing set accepts exactly the well-formed replies of at most three candidates of distinct documents in rank order |
| RagReconcile.CandidateExactly | src/retrieval/fastapi.ts:297-334 | the checks of one candidate, field by field |
| RagAnswers.CompleteExactly | src/retrieval/fastapi.ts:277-296 | a generation is complete if and only if it holds the canonical chunks, each once, in any order |
| RagAnswers.ReconcilesExactly | src/retrieval/fastapi.ts:436-502 | a candidate reconciles if and only if one document read has its id, fits it and the request, has a complete generation, and one chunk of that agrees with the canonical one and the candidate in text, hash and id |
| RagReconcile.ValidateCompleteChunkGeneration | src/retrieval/fastapi.ts:277-296 | it accepts exactly the generations with one stored chunk per canonical one, equal to it, and none left over |
| RagReconcile.SearchReply | src/retrieval/fastapi.ts:436-502 | a reply is accepted exactly if every candidate reconciles with the registry read, and yields the documents' full contents |
| RagReconcile.OnlyRegistryContent | src/retrieval/fastapi.ts:436-502 | for an arbitrary reply, search throws or returns full contents of distinct, active, approved documents of the request's scope, in rank order |
| RagReconcile.RankingIsAccepted | src/retrieval/fastapi.ts:436-502 | a reply that the service sends with its own ranking over the same registry is never rejected |
| RagRegistry.RegistryTables.Register | src/retrieval/fastapi.ts:106-166 | a registration commits all entries or none: each must be new, or repeat its stored version field by field, and retires the version it replaces |
| RagRegistry.RegisterIsExact | src/retrieval/fastapi.ts:106-166 | every prefix of a registration succeeds if and only if each entry may be registered, and leaves each stored row as the very entry, active, its rivals retired |
| RagRegistry.RegistrableExactly | src/retrieval/fastapi.ts:230-250 | the checks of a registration, field by field |
| RagRegistry.RegistryTables.Ingest | ai-service/rag_service/core.py:165-190 | an ingestion publishes a document's whole generation, or nothing |
| RagRegistry.IngestIsAnswered | ai-service/rag_service/core.py:165-190 | each refusal of an ingestion has its own condition over registry and generations, and an unrefused one publishes the chunks of the stored document |
| RagRegistry.AlwaysProgress | ai-service/rag_service/postgres.py:67-82 | no reachable state of concurrent registrations and ingestions is a deadlock |
| RagRegistry.ExactlyOneActive | src/retrieval/fastapi.ts:106-166 | a registered document always has exactly one active version |
| RagRegistry.VersionsNeverReturn | src/retrieval/fastapi.ts:119-142 | a version keeps its content for good, and once retired never becomes active again |
| RagRegistry.GenerationsAreExact | ai-service/rag_service/postgres.py:136-147 | every committed generation is exactly the chunks of its document |
| RagRegistry.PublishedWhileActive | ai-service/rag_service/postgres.py:67-82 | a generation is only published while its document is active and has none |
| RagPipeline.SearchRows | ai-service/rag_service/postgres.py:84-105 | the joined rows are handed on all or none, and none exactly if there are more than 1024 |
| RagPipeline.SearchSucceeds | ai-service/rag_service/postgres.py:84-105 | after any run of registrations and ingestions the service refuses a search if and only if more than 1024 rows join, and then as unavailable; otherwise the Node side accepts the reply with its best three |
| RagPipeline.SampleMeetsAll | src/retrieval/fastapi.ts:251-275 | one hash function meets the assumptions on hashes in every reachable registry |
| RagPipeline.SomethingToFind | src/retrieval/fastapi.ts:106-166 | a run of registration and ingestion after which there is a chunk to be found |
| Framing.StripPadding | src/channels/wecom/crypto.ts:211-219 | the index loop accepts exactly the values that end in 1 to 32 bytes of padding, and takes it off |
| Framing.PaddingIsUnique | src/channels/wecom/crypto.ts:211-219 | a value is padded in at most one way (section 6.3 of RFC 5652) |
| Framing.Unframe | src/channels/wecom/crypto.ts:153-180 | it accepts exactly the values that carry a message for the expected receiver, and returns that message |
| Framing.FrameCarries | src/channels/wecom/crypto.ts:164-176 | a padded frame carries its message and no other, for its receiver and no other, for every prefix |

## Findings

Where the code does not do what its documentation, names or tests suggest, the model follows the code, and the project proves when it
falls short.

- `src/index.ts:593-623`: the lookup before a reservation is awaited and the turn is not checked again after it. A turn sealed in the
  meantime reserves a ticket key or a handoff that nobody gives back: `SupportRuntime.LateReservationLeaks`, `SupportHandoffs.LatePlaceLeaks` (exactly when nobody holds it),
  `SupportLeaks.LeakedForGood`, `SupportLeaks.PlaceLeakedForGood` (exactly when it is never given back),
  `SupportRuntime.StuckForever`, `SupportHandoffs.StuckForever` (consequence), `ClosedDuringLookup` in both modules (a run).
- `src/channels/wecom/client.ts:152`: errcode 0 with a malformed message id is a plain error, which the caller records as failed although
  the customer got the text: `CustomerRouting.FailedButDelivered` (exact condition), `CustomerRouting.DeliveredYetFailed` (a run).
- `evals/selection/semantic/evaluation.ts:427-434`: the rebuild counts single-candidate cases as correct without looking at their gold,
  unlike lines 239-242, and throws on a case without candidates, which the live run counts as an abstention:
  `SemanticEvaluation.RebuildEqualsLive` (exact condition), `SemanticEvaluation.WrongSingleIsForgiven` (a case set).
- `evals/selection/semantic/durable-journal.ts:185-207`: a journal that is a lone newline reads as empty and resumes, but cannot be read
  once a record follows: `DurableJournal.CompletedAppend` (exact condition).
- `evals/selection/semantic/durable-journal.ts:113-127`: a failed append is not remembered, so a further append can make the journal
  unreadable for good: `DurableJournal.FailedThenAppended` (exact condition, for every number of bytes left),
  `DurableJournal.UnsyncedThenAppended` (after a failed fsync), `DurableJournal.BrokenForGood` (consequence).
- `evals/selection/semantic/durable-journal.ts:232-254`: a publisher can throw although its report is published:
  `ReportPublication.ThrewIsExact` (exact condition), `ReportPublication.PublishedYetThrew` (a run).
- `src/index.ts:151-230`: tenant ids with a colon can collide in the in-memory ticket key: `SupportStore.KeysCollideExactly` (exact
  condition), `SupportStore.MemoryKeyDecides`; the runtime's results take tenant ids without a colon, which never do.

## Left out

- Identifiers that are only compared for equality are numbers; texts are kept where their characters matter.
- SHA-256 and the stored payload hashes are treated as injective, mostly by storing what was hashed. The retrieval results need less:
  hashes of 64 hexadecimal digits, and no collision among the chunks of one document.
- SQL: row and advisory locks are assumed to serialize the transactions that name them; uniqueness is taken from the conflict
  targets of the inserts. Advisory lock keys are hashed to 64 bits, which the model takes to be free of collisions.
- JSON and time strings: parsing is abstracted to the values it yields; the journal assumes that a trace survives its round trip on one
  line. Reading it as bytes or as UTF-8 text is the same, since the newline byte is part of no other character.
- String order: registrations are sorted by code point here and by UTF-16 code unit in `src/retrieval/fastapi.ts:107-109`, object keys
  likewise in `evals/job-ready-rag/freeze.ts:20`; both are total orders that every writer shares, which is all the proofs need.
- Floating point: rates, percentile ranks, scores and vector norms are exact; math.hypot is the exact root.
- RagPipeline.SearchSucceeds: the service's rows and the Node side's read are of one registry state; a registration in between makes the
  reply fail the checks, as it should. The 262144-byte cap on replies is not modelled.
- RagRegistry.RegistryTables.Register: titles, dates and tags of an entry are one opaque text.
- SemanticEvaluation.Reconstruct: the reasons and counts of a blocked rebuild are not modelled.
- HoldoutRecovery.SessionsAreOneRun: a selector failure that stops the gate runner's session is a session that ends there.
- CustomerLoop.RouteTexts: counts one callback's messages with no other callback in between; CustomerRouting covers the interleavings.
- HarnessRuns.EvaluateRun: a report is malformed by lacking its declaration or its list of measurements; other wrongly typed fields, and
  the acceptance evaluation beside it, are not modelled.
- ReportPublication.FinalIsComplete: a publisher's random temporary name is its own; writing the attempt manifest is left out.
- CanonicalJson.CanonicalizeValue: integer-like and `__proto__` keys, and undefined items of arrays, are excluded.
- StaffProtocol.ClaimsAreSettled: verification of callbacks and the decoding of their XML come before the modelled event.
- SupportRuntime.OneHandoffPerConversation: the store without a durable business store is not modelled.
- EvidenceRuntime.CitedAnswersAreGrounded: the answer's wording around the cited text, the lexical score and the FAQ text match are
  arbitrary.
- Framing.Unframe: AES and base64 before it, and the decoding of the message as UTF-8 after it, are left out.
- Provisioning of staff bindings, list endpoints, HTTP parsing, cookies, static files, the UI, environment configuration, command-line
  runners, report rendering, model providers, embeddings and token caching.
- The frozen case tables, the population validator's counts, and the keyword and regular-expression classifiers.
- The role capability table beyond booking and availability rights.

# Data Lab verification model

This project models the parts of Data Lab JP that hold state, interleave, or do real arithmetic, and proves
what they promise for every input, every run and every interleaving. It covers seven components.

* **Bounded JSON gate** (`JsonGrammar`, `JsonInverse`, `JsonScanner`). The syntax trees of RFC 8259 (sections
  2 to 7) with their printing, a parser proved sound, complete and unambiguous against them, and the
  hand-written scanner as an object with a position and a node counter. The scanner accepts exactly the texts
  of bounded trees. Byte lengths follow RFC 3629, section 3.
* **One-shot handoff chain** (`Handoffs`, `HandoffSafety`, `HandoffObject`). Envelopes, syntax handoffs and
  synthetic observations, each to be used once, under owners whose clocks may call back into everything.
* **Kill/deadline lease and bounded send** (`KillDeadlineLease`, `LeaseSafety`, `LeaseObject`). The clock, the
  transport, the copy and the provider clock are adversaries that may make any nested calls before they answer.
* **Durable approval replay store and development gate** (`DevelopmentGate`, `ReplayRecord`, `ReplayCodec`,
  `ReplaySize`, `ReplayProtocol`, `ReplaySafety`, `ReplayStore`, `DurableGate`). The staged gate with its five
  observers, the canonical file format and how large it gets, the lock/temporary/replace protocol with any number
  of processes, I/O errors and crashes, the store and coordinator as a single caller sees them, and runs of the
  gate through the bridge beside runs of the store.
* **D1 batches and revalidation files** (`D1Query`, `LookupTables`, `D1Execution`, `D1Client`, `SqlText`,
  `Revalidation`). The batch builder and its recognizer, the one-shot client, the generated SQL file with a
  lexer for it, and what every executed prefix does to the tables of
  `runtime-candidates/affiliate-item-lookup-schema.sql`.
* **Insert-only reconciliation** (`ReconciliationText`, `Reconciliation`). The texts and their readers, the
  difference of two mappings, and the two preflights that apply it to an in-memory table.
* **Statistics and run protocols** (`PriceStatistics`, `Pagination`, `ClaimAndBackup`). Midrank and
  interpolated percentiles over arbitrary populations, the collection loop against any server, and the
  exclusive native-run claim together with the locked backup.

`Text` holds the option type and the identifier patterns that several modules share. Code that works in steps
is a class or a method with a loop here, proved against a function that lemmas then speak about; decision
cascades are functions.

Four promises turned out to hold only under a condition, which the model states exactly.

1. A D1 batch does not change one row per statement whenever every named pair is pending: an older redirect target
   for the public or content id stops it, and so does a URL that the schema refuses. `D1Execution.OneEachIffReady`
   gives the condition. `D1Execution.PendingIsNotEnough` is a batch that the builder builds and that an older target
   stops, `D1Execution.SchemeIsCompared` one whose URL begins with `HTTPS://`, which passes the URL check of the code
   but not the CHECK of the table, and `D1Execution.CutOffBatchIsStuck` says that an interrupted batch leaves such a
   state itself.
2. Executing a batch again changes nothing only if no unconfirmed pair was pending
   (`D1Execution.AgainChangesNothingIff`).
3. A NOT_AVAILABLE event of the revalidation file can stand beside an enabled row when the row got another content
   id after it was selected: the update is keyed by both identifiers, the event only by one
   (`Revalidation.EventsBesideDisabledRowsIff`, `Revalidation.EventBesideEnabledRow`). No statement of this
   repository changes a content id, so the failing state needs a writer from outside it; without one the promise
   holds (`Revalidation.OwnWritesKeepThePromise`).
4. Evidence released by the durable coordinator names the target of the approval, not by itself the target that the
   gate asked for: the two agree exactly when the approval names the gate's target
   (`DurableGate.ReleasedForItsApproval`). The default observer checks that, so with it the released evidence is the
   gate's own evidence with the approval set (`DurableGate.DefaultReleaseApproves`); another observer that may be put
   in need not (`DurableGate.OtherObserverMovesTarget`).

Clock values, prices and probabilities are exact reals. Outside conditions that the code takes from elsewhere
(digests, safe-URL check, ISO time stamps, disk and network outcomes) are arguments, so every statement holds
for all of their outcomes.

## Model

| member | source | states |
|---|---|---|
| `JsonScanner.ScanJsonBounds` | scripts/affiliate_cta_preconnection_synthetic_envelope.py:246-393 | The scanner ends on every text and accepts it if and only if the text is one JSON value with white space around it, within the depth, node, string, number and URL bounds; it passes no character twice, and all of them where it accepts |
| `JsonScanner.Scanner.Value` | scripts/affiliate_cta_preconnection_synthetic_envelope.py:305-385 | From any position, depth and node count the recursive descent ends where the grammar says, with the position behind the value and the nodes counted, or fails exactly when grammar or bounds fail |
| `JsonScanner.Scanner.String` | scripts/affiliate_cta_preconnection_synthetic_envelope.py:262-303 | A string token is read to its end with its decoded value exactly when it is well formed and within the raw-byte and URL bounds |
| `JsonScanner.Scanner.Number` | scripts/affiliate_cta_preconnection_synthetic_envelope.py:351-379 | A number token is accepted exactly when it derives from the number grammar and has at most 64 characters |
| `JsonInverse.DocumentSound` | scripts/affiliate_cta_preconnection_synthetic_envelope.py:305-391 | A parsed text is the printing of a well-formed tree between white space |
| `JsonInverse.DocumentExact` | scripts/affiliate_cta_preconnection_synthetic_envelope.py:305-391 | Every printed well-formed tree between white space is parsed back to itself |
| `JsonInverse.Unambiguous` | scripts/affiliate_cta_preconnection_synthetic_envelope.py:305-391 | A text has at most one derivation: the tree, the white space before it and the white space behind it are all determined |
| `HandoffSafety.NothingHappensTwice` | scripts/affiliate_cta_preconnection_synthetic_envelope.py:396-514 | Over every history, re-entrant clocks included, no envelope is accepted twice, no handoff projected twice and no observation consumed twice |
| `HandoffSafety.SpentIsForever` | scripts/affiliate_cta_network_disabled_wire_adapter.py:141-158 | What has been used at some point of a history brings nothing new under any further calls |
| `HandoffSafety.EveryRunEnds` | scripts/affiliate_cta_preconnection_synthetic_envelope.py:396-460 | Past the owner check every run ends accepted, with a handoff, or with the owner's lease terminal; a used envelope is blocked and a consumed handoff is not entered again |
| `HandoffSafety.RunLeads` | scripts/affiliate_cta_preconnection_synthetic_envelope.py:408-460 | One run keeps the at-most-once invariant, whatever its clocks call back |
| `HandoffSafety.ProjectionLeads` | scripts/affiliate_cta_preconnection_synthetic_envelope.py:473-514 | One projection keeps it too, although the handoff is marked only after the owner's clock was read |
| `HandoffSafety.HonestEnvelopeIsAccepted` | scripts/affiliate_cta_preconnection_synthetic_envelope.py:408-458 | With an honest owner an unused envelope that passes the gates is accepted, or handed over |
| `HandoffSafety.HonestHandoffIsProjected` | scripts/affiliate_cta_offline_wire_projection_redaction.py:164-184 | With an honest owner an unused handoff is projected and accepted |
| `HandoffObject.Registry.RunEnvelope` | scripts/affiliate_cta_preconnection_synthetic_envelope.py:396-460 | The steps on the registries come to exactly the modelled state and verdict, so a run keeps the at-most-once invariant, blocks a used envelope, and past the owner check ends accepted, handed over or terminal |
| `HandoffObject.Registry.ProjectHandoff` | scripts/affiliate_cta_preconnection_synthetic_envelope.py:473-514 | The same for the projection of a handoff, which is entered at most once |
| `HandoffObject.Registry.ConsumeForOwner` | scripts/affiliate_cta_offline_provider_factory.py:101-181 | The same for the owner's consumption of an observation around its provider clock |
| `LeaseSafety.HistoriesAreOk` | scripts/affiliate_cta_kill_deadline_contract.py:62-135 | In every history accepted samples never decrease and are below the deadline, and every transport start follows an accepted sample with a budget that fits before the deadline |
| `LeaseSafety.TerminalIsForever` | scripts/affiliate_cta_kill_deadline_contract.py:71-92 | After a lease is terminal no call changes anything: nothing is sampled, sent, released or observed |
| `LeaseSafety.SampleEnds` | scripts/affiliate_cta_kill_deadline_contract.py:75-92 | Whatever the clock calls back, a sample accepts its reading and nothing else, or ends the lease |
| `LeaseSafety.SendEnds` | scripts/affiliate_cta_bounded_send_contract.py:129-181 | A response is released only after exactly one transport call, with 1 <= budget <= 1000 * (deadline - t0), 1000 * (t1 - t0) < budget and t1 < deadline; otherwise the bound lease is terminal |
| `LeaseSafety.ExecuteEnds` | scripts/affiliate_cta_bounded_send_contract.py:85-114 | The executor starts the transport at most once, only on a live lease and with the guarded budget |
| `LeaseSafety.ObserveEnds` | scripts/affiliate_cta_offline_provider_factory.py:62-99 | An observation that reached the fetcher is bound to a live lease and carries the transport's answer, or leaves the lease terminal |
| `LeaseSafety.RecordsEnd` | scripts/affiliate_cta_offline_provider_factory.py:132-146 | The records of all selected items come out together, each with its transport's answer and under a live lease, or not at all, and then exactly when the lease is terminal |
| `LeaseSafety.HonestSendIsReleased` | scripts/affiliate_cta_bounded_send_contract.py:143-178 | With an honest rising clock, room for the timeout and a timely transport the answer is released |
| `LeaseSafety.HonestObservationIsBound` | scripts/affiliate_cta_production_composition.py:78-92 | With an honest environment the composed path yields a bound observation of the transport's answer |
| `LeaseSafety.EffectiveFits` | scripts/affiliate_cta_bounded_send_contract.py:191-195 | The effective timeout never exceeds the timeout, the remaining budget or 5000 ms |
| `LeaseSafety.ElapsedIsBelowBudget` | scripts/affiliate_cta_bounded_send_contract.py:204-229 | Elapsed times that match in conservative microseconds are below the budget in exact arithmetic |
| `LeaseObject.ComposedPath.TakeSample` | scripts/affiliate_cta_kill_deadline_contract.py:75-92 | The steps on the lease fields, nested calls included, come to exactly the modelled sample: a reading is accepted and nothing else, or the lease is terminal |
| `LeaseObject.ComposedPath.PerformOp` | scripts/affiliate_cta_kill_deadline_contract.py:94-130 | The same for check, budget, bind, matches and revoke |
| `LeaseObject.ComposedPath.SendOnce` | scripts/affiliate_cta_bounded_send_contract.py:129-181 | The same for a whole bounded send: a response comes out only after one transport call within budget and deadline, otherwise a bound lease is terminal |
| `LeaseObject.ComposedPath.CollectRecords` | scripts/affiliate_cta_offline_provider_factory.py:132-146 | The same for the loop over all selected items: every record with its transport's answer, or none and a terminal lease |
| `LeaseObject.ComposedPath.ObserveOnce` | scripts/affiliate_cta_offline_provider_factory.py:62-99 | The same for a whole observation: a live lease and the transport's answer, or none and a terminal lease once the fetcher was reached |
| `ReplayCodec.DecodeSerialize` | scripts/development_remote_approval_replay_persistence.py:56-93 | Every valid snapshot that fits in 256 KiB reads back with its revision and records |
| `ReplayCodec.FormatIsCanonical` | scripts/development_remote_approval_replay_persistence.py:69-93 | A content decodes to a snapshot if and only if it is what serializing that snapshot writes, so no two contents decode alike |
| `ReplayCodec.UnfinishedWriteIsInvalid` | scripts/development_remote_approval_replay_persistence.py:69-93 | No proper prefix of a written file decodes |
| `ReplayRecord.AppendKeepsSnapshot` | scripts/development_remote_approval_replay_record.py:113-136 | Appending keeps a snapshot valid exactly when the record is valid and brings a new request and a new target |
| `ReplayRecord.BuiltRecordNamesItsEvidence` | scripts/development_remote_approval_replay_record.py:66-103 | A built record is valid, carries the request and names the target of ready evidence |
| `ReplayRecord.ObservedApprovalIsRecorded` | scripts/development_remote_approval_replay_record.py:66-103 | Every approval that the observer validates gives a record |
| `ReplaySafety.StoreStaysHealthy` | scripts/development_remote_approval_replay_persistence.py:252-339 | Over every interleaving of any number of processes, with errors and crashes anywhere, an initialized store decodes as healthy, its revision is its record count, old records stay, and requests and targets stay unique |
| `ReplaySafety.StoreIsHealthyOrEmpty` | scripts/development_remote_approval_replay_persistence.py:192-222 | A store that was never completely initialized has no record and no saved answer |
| `ReplaySafety.StepExtendsTheLog` | scripts/development_remote_approval_replay_persistence.py:313-331 | One step adds at most one record, at the end, and never makes a complete file incomplete |
| `ReplaySafety.SavedAtMostOncePerRevision` | scripts/development_remote_approval_replay_persistence.py:276-334 | Two saves never both return SAVED for one expected revision, and each saved record is in the store at its revision |
| `ReplaySafety.ReleasedAtMostOnce` | scripts/development_remote_approval_durable_coordinator.py:92-177 | Over one run no two releases share a request or a target, and released evidence names the target of a stored record |
| `ReplaySafety.ReleasedAtMostOnceEver` | scripts/development_remote_approval_replay_persistence.py:252-339 | The same for the life of the store: over any number of sessions, one after another on the store that the last one left, crashes and recoveries included, no two SAVED answers and no two releases share a request or a target |
| `ReplaySafety.ReceiptsAreNew` | scripts/development_remote_approval_replay_persistence.py:313-334 | Every SAVED answer of a run is for a record that was added in that run |
| `ReplaySafety.ReleaseIsReceipted` | scripts/development_remote_approval_durable_coordinator.py:152-177 | Evidence is released only in the step that also records a SAVED answer for it |
| `ReplaySafety.NextKeeps` | scripts/development_remote_approval_replay_persistence.py:165-190 | Every step of every process keeps the invariant: one lock holder, a complete or never completed file, distinct receipts |
| `DurableGate.ReleasedForItsApproval` | scripts/development_remote_approval_durable_coordinator.py:67-177 | Over every run and under every observer, evidence is released only to a coordination that awaited approval; it is ready and approved, names the target of the approval given, and the store decodes as healthy with the record of that request and target. It names the target of the evidence asked with if and only if the approval does |
| `DurableGate.DefaultReleaseApproves` | scripts/development_remote_iphone_approval_observation.py:44-120 | With the default observer every release is the evidence asked with, approved by a validated approval and otherwise unchanged, and its target is in the store |
| `DurableGate.OtherObserverMovesTarget` | scripts/development_remote_approval_durable_coordinator.py:45-65 | A concrete observer answer with which the gate completes for another target than its own |
| `DurableGate.DurableRunsAreStaged` | scripts/development_gate_coordinator.py:76-130 | Every run of the gate whose approval goes through the bridge, beside every run of the store and under every observer, is staged: the number of completed actions fixes the stage and is at most five |
| `DurableGate.ReadyGateIsRecorded` | scripts/development_durable_remote_approval_action_bridge.py:83-140 | Such a run that needs approval is ready only when the store decodes as healthy with a record of the target of its last evidence, and the record stays under all later steps |
| `DurableGate.DurableRunIsRun` | scripts/development_durable_remote_approval_action_bridge.py:102-140 | With the default observer every run through the bridge is a run whose approval step is a validated approval: no field is rewritten, and at the end commit, push and CI name one commit |
| `DurableGate.GenuineFactsPassDurably` | scripts/development_durable_remote_approval_action_bridge.py:83-120 | Every gate can be passed through the bridge: genuine facts and a fresh store give such a run that ends ready |
| `ReplayStore.RemoteApprovalReplayStore.SaveRecord` | scripts/development_remote_approval_replay_persistence.py:252-339 | A save answers as specified, changes the main file exactly when the record is savable, and leaves lock and temporary file as they were |
| `ReplayStore.RemoteApprovalReplayStore.Load` | scripts/development_remote_approval_replay_persistence.py:224-250 | Loading answers by lock, temporary file, main file and decoding, in that order |
| `ReplayStore.RemoteApprovalReplayStore.Initialize` | scripts/development_remote_approval_replay_persistence.py:192-222 | Initialization goes through exactly where there is no main file, and leaves an empty healthy store |
| `ReplayStore.SavedIsLoaded` | scripts/development_remote_approval_replay_persistence.py:293-334 | After SAVED the store loads with the record appended at the next revision; the same save again is stale or already consumed |
| `ReplayStore.CoordinateApproval` | scripts/development_remote_approval_durable_coordinator.py:67-177 | The coordinator answers as specified and changes the store only when it releases evidence |
| `ReplayStore.ReleasedEvidenceIsOnDisk` | scripts/development_remote_approval_durable_coordinator.py:146-169 | Released evidence has its record on disk, and the same approval is refused from then on |
| `ReplayStore.SmallStoreSaves` | scripts/development_remote_approval_replay_persistence.py:56-67 | Below 476 records with numbers below 10^19 the size limit refuses nothing: a record is saved exactly when it comes at the current revision, is valid and is new |
| `ReplayStore.SoloSaveAnswers` | scripts/development_remote_approval_replay_persistence.py:252-339 | Run by one process alone, a save of the step protocol ends with exactly the answer and files of the method |
| `ReplayStore.SoloApproveAnswers` | scripts/development_remote_approval_durable_coordinator.py:67-177 | The same for a whole coordination: load, observer and save |
| `ReplayStore.SoloInitializes` | scripts/development_remote_approval_replay_persistence.py:192-222 | The same for an initialization |
| `DevelopmentGate.CompletedActionAdvancesOneStage` | scripts/development_gate_coordinator.py:76-130 | Every completed action moves exactly one stage on, or over approval from CI when none is required, and rewrites no field |
| `DevelopmentGate.RunsAreStaged` | scripts/development_gate_evidence.py:58-110 | On every run from blank evidence the number of actions fixes the stage, at most five actions complete, and earlier fields are never altered |
| `DevelopmentGate.ReadyEvidenceAgrees` | scripts/development_gate_evidence.py:82-110 | At the end commit, push and CI name one commit and the approval field is as required |
| `DevelopmentGate.GenuineFactsPass` | scripts/development_gate_coordinator.py:76-130 | Genuine facts give a run that ends ready, in four actions or in five with approval |
| `D1Query.BuildQueries` | scripts/affiliate_d1_sensitive_query.py:49-82 | The loop with its seen-sets builds the batch exactly for 1 to 5 valid rows with distinct identifiers, and raises otherwise |
| `D1Query.CanonicalBatch` | scripts/affiliate_d1_sensitive_query.py:85-100 | The recognizer loop accepts exactly the canonical batches |
| `D1Query.ReadUndoesBuild` | scripts/affiliate_d1_sensitive_query.py:85-100 | Reading a built batch recovers exactly its rows, outcomes and time stamp, and it is accepted |
| `D1Query.BuildIsInjective` | scripts/affiliate_d1_sensitive_query.py:49-82 | No two inputs build one batch |
| `D1Query.CanonicalIsTheImage` | scripts/affiliate_d1_sensitive_query.py:85-100 | A typed batch is accepted if and only if some input builds it |
| `D1Execution.BlockExec` | scripts/affiliate_d1_sensitive_query.py:16-33 | A row's statements do nothing for a pair that is not pending, stop at a target that does not fit, and otherwise write target, event and transition |
| `D1Execution.EveryPrefixIsSafe` | scripts/affiliate_d1_sensitive_query.py:61-82 | After every executed prefix each newly enabled row has its redirect target and VALID event, and nothing old is lost |
| `D1Execution.OneEachIffReady` | scripts/affiliate_d1_sensitive_query.py:170-177 | A batch changes one row per statement if and only if every pair was pending and every target was free and fits the schema |
| `D1Execution.AgainChangesNothingIff` | scripts/affiliate_d1_sensitive_query.py:61-82 | Executing a completed batch again changes nothing if and only if no unconfirmed pair was pending |
| `D1Execution.AgainChangesNothing` | scripts/affiliate_d1_sensitive_query.py:61-82 | Without unconfirmed outcomes that holds even after a batch that was stopped |
| `D1Execution.CutOffBatchIsStuck` | scripts/affiliate_d1_sensitive_query.py:19-21 | A batch cut off after a target statement stops at once when it is sent again |
| `D1Execution.PendingIsNotEnough` | runtime-candidates/affiliate-item-lookup-schema.sql:49-63 | For every URL that passes the checks, a batch that is built, whose pairs are all pending, and that stops at an older target |
| `D1Execution.SchemeIsCompared` | runtime-candidates/affiliate-item-lookup-schema.sql:55-60 | The same without any target in the table, for every safe URL written with `HTTPS://` |
| `D1Client.FreshPostsAtMostOnce` | scripts/affiliate_d1_sensitive_query.py:129-181 | Over every history a client posts at most one batch, and that batch is one that the builder builds |
| `D1Client.PostsAtMostOnce` | scripts/affiliate_d1_sensitive_query.py:145-181 | No history of a client posts a second time or keeps a token after a post |
| `D1Client.AcknowledgedIffReady` | scripts/affiliate_d1_sensitive_query.py:166-177 | With a truthful server a batch is acknowledged if and only if every pair was ready, and then every row is as its outcome says |
| `D1Client.D1QueryClient.Write` | scripts/affiliate_d1_sensitive_query.py:145-181 | A write posts exactly a confirmed, typed, canonical batch of an unused ready client, and acknowledges only one change per statement |
| `D1Client.ExecKeepsSchema` | runtime-candidates/affiliate-item-lookup-schema.sql:1-83 | No statement breaks the constraints of the schema |
| `SqlText.QuoteReadsBack` | scripts/affiliate_local_lifecycle_revalidation.py:181-182 | Reading a quoted literal gives back the value, for every string |
| `SqlText.FileReadsBack` | scripts/affiliate_local_lifecycle_revalidation.py:185-215 | A file of statements lexes and splits into exactly those statements; no value ends its literal or statement early |
| `Revalidation.FileHoldsItsStatements` | scripts/affiliate_local_lifecycle_revalidation.py:185-215 | The generated file holds exactly the intended statements, whatever identifiers, URL and time stamp are |
| `Revalidation.WriteStatements` | scripts/affiliate_local_lifecycle_revalidation.py:185-215 | The loop writes the file exactly when every outcome may reach it, and raises otherwise |
| `Revalidation.PlanCycle` | scripts/affiliate_local_lifecycle_revalidation.py:239-274 | No file is made when any row is unconfirmed; otherwise every outcome is the judged reply |
| `Revalidation.EveryPrefixIsSafe` | scripts/affiliate_local_lifecycle_revalidation.py:190-212 | After every executed prefix each row the file enabled has its fresh target and VALID event, and every NOT_AVAILABLE event is beside a disabled row or a re-paired one |
| `Revalidation.PairedPrefixDisablesFirst` | scripts/affiliate_local_lifecycle_revalidation.py:205-212 | While the pairs are still in the table, every NOT_AVAILABLE event of every prefix is beside an already disabled row |
| `Revalidation.EventsBesideDisabledRowsIff` | scripts/affiliate_local_lifecycle_revalidation.py:205-212 | A completed file leaves that so if and only if no reported row was enabled under another content id |
| `Revalidation.EventBesideEnabledRow` | scripts/affiliate_local_lifecycle_revalidation.py:205-212 | A concrete table where it fails, for a file that the cycle does write |
| `Revalidation.OwnWritesKeepThePromise` | scripts/affiliate_local_lifecycle_revalidation.py:205-212 | With any writes of this repository between selection and file, every prefix leaves every NOT_AVAILABLE event beside a disabled row |
| `ReconciliationText.ParseCandidate` | scripts/affiliate_d1_incremental_reconciliation.py:81-91 | The loop finds the rows whose candidate file the text is, and fails exactly when there are none |
| `ReconciliationText.ParseRemote` | scripts/affiliate_d1_incremental_reconciliation.py:94-118 | The same for exported rows with their eligibility rule, and whether all are disabled and pending |
| `ReconciliationText.ReadRemoteExact` | scripts/affiliate_d1_incremental_reconciliation.py:33-41 | A line is read as an exported row exactly when it is that row's line |
| `ReconciliationText.DeltaReadsBack` | scripts/affiliate_d1_incremental_reconciliation.py:192-198 | The emitted delta reads back as its rows in their order |
| `Reconciliation.UniqueIsDistinct` | scripts/affiliate_d1_incremental_reconciliation.py:121-124 | Comparing set sizes finds exactly the lists in which neither identifier comes twice |
| `Reconciliation.DeltaSize` | scripts/affiliate_d1_incremental_reconciliation.py:179-184 | The delta has exactly as many rows as the candidate has more than the remote |
| `Reconciliation.DeltaCompletesTheMapping` | scripts/affiliate_d1_incremental_reconciliation.py:165-206 | A ready delta goes in and makes the table exactly the candidate mapping, existing rows untouched, identifiers unique, new rows pending, eligibility unchanged |
| `Reconciliation.ReconcilingAgain` | scripts/affiliate_d1_incremental_reconciliation.py:184-191 | Reconciling any export of the completed table reports it as synchronized |
| `Reconciliation.ReadyDeltaReadsBack` | scripts/affiliate_d1_incremental_reconciliation.py:184-206 | What a ready report hands out reads back as the missing rows in candidate order |
| `Reconciliation.ReconcileSnapshots` | scripts/affiliate_d1_incremental_reconciliation.py:127-210 | The report is a function of the rows that the two texts stand for, and fails closed otherwise |
| `Reconciliation.MemoryTable.Insert` | scripts/affiliate_d1_active_incremental_delta_preflight.py:80-91 | An insert statement goes in as a whole or not at all |
| `Reconciliation.AssessActive` | scripts/affiliate_d1_active_incremental_delta_preflight.py:51-136 | The active preflight is ready exactly when the delta has its digest and reconciliation is ready with this very delta; its own postconditions never fail |
| `Reconciliation.AssessPending` | scripts/affiliate_d1_incremental_delta_preflight.py:54-130 | The pending preflight is ready exactly when moreover every exported row is disabled and pending |
| `PriceStatistics.MidranksSum` | scripts/calculate-price-analysis.py:142-158 | The midranks of the members of every population of size n sum to n(n-1)/2 |
| `PriceStatistics.MeanPercentileIsFifty` | scripts/calculate-price-analysis.py:142-158 | So the mean percentile of every population of more than one is 50 |
| `PriceStatistics.PercentileInRange` | scripts/calculate-price-analysis.py:142-158 | The percentile exists exactly for members and lies between 0 and 100 |
| `PriceStatistics.PercentileIncreases` | scripts/calculate-price-analysis.py:142-158 | A larger member has a strictly larger percentile |
| `PriceStatistics.PercentileEnds` | scripts/calculate-price-analysis.py:142-158 | Among several, exactly the unique minimum is at 0 and exactly the unique maximum at 100 |
| `PriceStatistics.PercentileForgetsOrder` | scripts/calculate-price-analysis.py:142-158 | The percentile does not depend on the order of the population |
| `PriceStatistics.MidrankIsMidpoint` | scripts/calculate-price-analysis.py:142-158 | Ties get the midpoint of the ranks they occupy in the sorted population |
| `PriceStatistics.PercentileBetween` | scripts/calculate-price-analysis.py:93-100 | The interpolated percentile lies between minimum and maximum and takes them at 0 and 1 |
| `PriceStatistics.PercentileRises` | scripts/calculate-price-analysis.py:93-100 | It is monotone in the probability |
| `PriceStatistics.InterpolatedForgetsOrder` | scripts/calculate-price-analysis.py:93-100 | It does not depend on the order of the values |
| `PriceStatistics.MedianIsMiddle` | scripts/calculate-price-analysis.py:93-100 | At one half it is the middle value or the midpoint of the two middle values |
| `PriceStatistics.SummaryInOrder` | scripts/calculate-price-analysis.py:103-132 | min <= p10 <= p25 <= median <= p75 <= p90 <= p95 <= max, and the mean lies between the ends |
| `PriceStatistics.BandsFollowPrices` | scripts/calculate-price-analysis.py:161-180 | A dearer member is never in a lower band; unique extremes are in the end bands |
| `PriceStatistics.GroupPopulations` | scripts/calculate-price-analysis.py:336-345 | The population of an identifier is the prices of the available items that list it, in item order |
| `PriceStatistics.OwnGroupHasPercentile` | scripts/calculate-price-analysis.py:348-371 | An available item compared in its own group has a percentile exactly when the group reaches the minimum sample |
| `Pagination.Collect` | scripts/collect-dmm-items.py:323-498 | Against every server the loop ends within the page and item bounds, all pages but the last are full, offsets follow the items fetched, duplicates are the ids on two pages or more, and it stops for the first reason there is |
| `Pagination.WorkItemsEnumerate` | scripts/collect-dmm-items.py:505-531 | The stored (offset, position) pairs number the items 1 to N in order |
| `Pagination.FullPagesCount` | scripts/collect-dmm-items.py:490-498 | Page offsets are 1, 51, 101 and so on |
| `Pagination.HonestRunIsComplete` | scripts/collect-dmm-items.py:476-498 | Against an honest server of size T it fetches the first min(T, maxItems, 50 * maxPages) items and reports complete if and only if T < maxItems and max(1, ceil(T/50)) < maxPages |
| `Pagination.HonestNeverFails` | scripts/collect-dmm-items.py:387-448 | Against an honest server no request is rejected |
| `ClaimAndBackup.AtMostOneRunIsRunning` | scripts/collector_preflight.py:420-462 | Under every interleaving, failure and crash, at most one native run is running in every committed state |
| `ClaimAndBackup.BackupsAreQuiescent` | scripts/backup-data-lab-db.py:336-401 | Every finished backup is a copy of one committed state in which no native run was running, although the comparison before its final name looks at item counts and digests of runs and snapshots only: the lock makes it a copy |
| `ClaimAndBackup.MatchingCopiesDiffer` | scripts/backup-data-lab-db.py:318-325 | That comparison alone is no proof: a file with another item matches too |
| `ClaimAndBackup.ClaimCommitsAlone` | scripts/collector_preflight.py:423-455 | When a claim commits nothing else is running, and its run is then the one that is |
| `ClaimAndBackup.NextKeeps` | scripts/backup-data-lab-db.py:349-389 | Every step of every process keeps the lock discipline and the copied pieces consistent |
| `ClaimAndBackup.UndisturbedBackupCopies` | scripts/backup-data-lab-db.py:336-401 | Undisturbed, a backup of a quiet database ends with its copy |
| `ClaimAndBackup.UndisturbedClaimRuns` | scripts/collector_preflight.py:420-462 | Undisturbed, a claim of a fresh run on a quiet database makes it the running one |

## Left out

- The decoder behind the scanner (duplicate keys, finite floats, root object, UTF-8 decoding, media type): the handoff chain takes its outcome as part of the snapshot.
- The strict fixture parser, the projected field set and the disposition evidence of the projection stage: each is settled by one branch and is an argument of a projection.
- Which clock readings are acceptable inside the handoff chain: an argument there, because the lease model decides it.
- Decimal precision and the rounding of float differences in lease and send, because clock values are exact reals.
- The replay file as bytes: canonical content is ASCII, so characters stand for bytes; the byte order mark, the UTF-8 decoding error and the limit on digits of an integer in the JSON library are not modelled.
- Symbolic links, reparse points, file permissions and wrongly typed arguments of the store, and its disabled production mode.
- Loss of data at a power failure after a completed replace: steps on files are atomic and durable.
- A durable result, action result or bridge argument of the wrong type, and reason codes of the durable coordinator beyond what the bridge checks of them.
- The text of the D1 statements: the five safe statements are an enumeration, and any other text is one further value.
- The safe-URL check and the ISO time stamp parser: arguments of the batch builder and of the revalidation cycle.
- HTTP, JSON encoding of the request and redirects of the query client: its reply is an argument.
- Selection of rows, temporary file and subprocess of the revalidation cycle, and the exceptions that end it safely.
- SHA-256: the reconciliation takes whether both digests match as one argument, the preflights whether the digest of the delta matches as another.
- `AssessActive`: takes the schema script to be the one of the repository, because what another script would create is not known.
- `AssessPending`: the same.
- `ReconcileSnapshots`: does not name the reason codes of its failures, because they are settled by single branches.
- The limit of the database driver on the number of bound parameters in the preflights.
- Rounding of displayed statistics, the data-confidence score, the histories of single items, and the counts by threshold of the group analysis.
- Request pacing, error codes and the stored columns of the collection run.
- The age check of running rows, schema and integrity checks, digests, disk space and rotation around claim and backup.
- Publication policy receipts, compliance reviews, browser code and site generation, whose claims are settled by one branch.

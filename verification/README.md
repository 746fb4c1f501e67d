# Desk Futures: a verified model of the journey, the market series, the trade ledger and the streams

The desk runs four kinds of logic whose parts have to agree over unbounded runs or inputs. This project models
them in Dafny and proves what they keep. Every module follows one or two source files; methods that change state
are classes whose methods are proved against specification functions, and the properties are lemmas about those.

* **The analytical journey** (`AnalyticalCatalog`, `AnalyticalEvidence`, `AnalyticalJourney`, `JourneyOperations`,
  `JourneyInvariants`, `AuditTrail`, `DecisionGate`): ten phases, evidence receipts, derived statuses, a
  hash-chained audit trail and the decision gate. On top of it the research session (`ContextReceipts`,
  `GreedySelection`, `PhaseTraversal`, `ResearchSession`, `AnalysisOutputs`, `SessionOutcome`), which drives a journey
  from a signed receipt list and an analytical output. Its end-to-end result is
  `SessionOutcome.BuildResearchSession`: when the session exists, and when its own decision passes the gate. The
  answers depend on the receipt list and the output's fields only; the list determines the greedy picks they mention.
* **The market series** (`Candles`, `WilderIndicators`, `BarDerivation`, `ExtraMinutes`, `MarketResampler`,
  `MarketDerivation`): which bars a collection of one-minute rows determines, and Wilder's indicators computed in place.
* **The trade ledger** (`EntryFills`, `TradeBook`, `CandleCursor`, `TheoreticalLedger`, `ExecutionOutbox`).
* **Streams, printing, reconciliation** (`OutputCollector`, `Telemetry`, `CanonicalJson`, `PositionKeys`,
  `SnapshotReconciliation`). `JsText` holds the string operations they share, on sequences of UTF-16 code units, and
  `Permutations` the step the order-independence proofs take.

Conventions. Hashes, HMACs, identifiers cut from hashes and texts made by string formatting are function
parameters; where a result needs them not to collide it says so (`CollisionFree`, `DistinctIds`). Times are
milliseconds. Prices, averages and lots are reals, reconciled quantities integers, in place of floating point and
its 1e-9 tolerance. A database transaction is one method; a rejection is three (`NoteRejection`, `RejectIntentRow`,
`CancelRows`) because the source runs it as separate statements. The touch and fill simulator behind the exit rule is
a function of the candle.

Some properties one would expect are false of the code. Each has a lemma with an input that shows it and one that says
exactly when the property holds:

* a line of JSON `null` makes the streaming telemetry throw where the batch parse may not
  (`Telemetry.NullLineDivides`, `Telemetry.StreamingAgreesExactly`);
* the position map key is ambiguous when one account is another one, a separator and the start of an instrument name
  (`SnapshotReconciliation.CollisionExample`, `FaithfulExactly`);
* entry fills add up to the cumulative quantity only as long as the lookup of the stored figures finds those of the last
  increase: not once the order has ended and its figures are frozen, nor when an older figure stands under the name
  looked up first; the increase is then recorded again (`EntryFills.LateIncreaseCountedTwice`,
  `MixedSpellingCountedTwice`, `IncreaseForgottenExactly`);
* an increase without a positive average is stored and never filled (`EntryFills.UnpricedIncreaseIsLost`,
  `IncreaseLostExactly`);
* an average stored without new quantity, corrected or blanked, moves value without a fill
  (`EntryFills.CorrectedAverageMovesValue`, `BlankAverageIsForgotten`, `FillsTelescope`);
* a management event redelivered under its key with a larger quantity, or a protective order seen twice with the same
  figures, moves the trade and loses the fill (`TradeBook.GrowingKeyLosesFill`, `KeyReusedDropsFill`,
  `ProtectiveOrderOverApplied`, `ProtectiveRepeatDropsFill`);
* an unpriced snapshot settlement breaks the average exit price (`TradeBook.SettledLotsCountedAtAverage`,
  `SettlementKeepsAverageExactly`), and lots too when an entry fill, which leaves the revision alone, came between its
  read and its write (`TradeBook.EntryBehindReadLosesLots`, `SettlementConservesExactly`);
* a portfolio intent's theoretical entry is not checked against the legacy intent it is linked to
  (`TheoreticalLedger.LinkedIntentTwiceTerminal`, `TerminatedThroughLink`, `LinkedIntentFilledTwice`);
* completing an outbox row looks at bridge and token only, so a cancelled row can be delivered and its rejected intent
  sent (`ExecutionOutbox.CancelledRowCompletesExactly`, `RejectedIntentIsSent`);
* the journey's integrity check alone is not inductive: it admits an active phase whose predecessors were never
  started, which no run reaches (`JourneyInvariants.IntegrityAloneIsNotInductive`, `IntegrityIsKeptExactly`);
* a session whose context is fully traversed fails on an output that lacks one of the fields copied into the opportunity
  output, such as one whose plan is given as `execution_plan_proposal` (`SessionOutcome.ProposalMakesSessionFail`,
  `IncompleteOutputFailsExactly`, `AnalysisOutputs.OpportunityIsSafeExactly`);
* the runtime and the canonical derivation differ where a row says both `is_closed: true` and `closed: false`
  (`MarketDerivation.DeniedMinuteDivides`, `RuntimeAgreesWithCanonical`).

Check everything with `dafny verify dfyconfig.toml`.

## Model

| member | source | states |
|---|---|---|
| AnalyticalEvidence.VerifyReceipt | mcp_gpt_desk/src/analytical-evidence-receipts.js:108-190 | no violation is reported exactly when ordinal, journey, phase scope, cutoff, reasons, effective time, hash and identifier are all as issued |
| AnalyticalEvidence.IssuedIsGenuine | mcp_gpt_desk/src/analytical-evidence-receipts.js:23-106 | every receipt that is issued verifies for its own phase and cutoff, and a payload is always hashed by the backend |
| AnalyticalEvidence.CompleteEvidenceIssues | mcp_gpt_desk/src/analytical-evidence-receipts.js:23-106 | evidence with all fields given, effective at the cutoff and with some content is issued exactly when JSON can carry its payload, and then with its own kind and availability |
| JsText.SortedUniqueIsCanonical | mcp_gpt_desk/src/analytical-evidence-receipts.js:311-320 | a normalized code list depends only on which codes occur, not on their order or repetition |
| AnalyticalJourney.CheckEntry | mcp_gpt_desk/src/analytical-journey.js:431-483 | one phase entry draws no violation exactly when it keeps its catalog definition and the fields its status demands |
| AnalyticalJourney.CheckPhases | mcp_gpt_desk/src/analytical-journey.js:426-488 | the loop with its open-seen flag and active counter accepts exactly the lists where terminal phases form a prefix and at most one phase is active |
| AnalyticalJourney.CheckReceipts | mcp_gpt_desk/src/analytical-journey.js:490-511 | the receipt loop accepts exactly the lists of genuine receipts with pairwise distinct identifiers |
| AnalyticalJourney.VerifyAuditChain | mcp_gpt_desk/src/analytical-journey.js:635-675 | the chain loop accepts exactly the non-empty trails whose events are numbered, hash-linked and in time order |
| AnalyticalJourney.CheckIntegrity | mcp_gpt_desk/src/analytical-journey.js:405-550 | the whole integrity check reports nothing exactly when the journey satisfies the integrity predicate |
| AnalyticalJourney.MissingMeans | mcp_gpt_desk/src/analytical-journey.js:552-558 | a kind is reported missing exactly when it is required and no receipt is of it |
| AnalyticalJourney.NothingMissing | mcp_gpt_desk/src/analytical-journey.js:552-558 | nothing is reported missing exactly when every required kind has a receipt |
| JourneyOperations.StartAnalyticalPhase | mcp_gpt_desk/src/analytical-journey.js:89-133 | starting a phase has the specified outcome for every journey, phase, actor and time, errors included, in the source's order of checks |
| JourneyOperations.RecordAnalyticalEvidence | mcp_gpt_desk/src/analytical-journey.js:135-193 | recording evidence has the specified outcome, including replay of a known receipt and collision |
| JourneyOperations.CompleteAnalyticalPhase | mcp_gpt_desk/src/analytical-journey.js:195-275 | completing a phase has the specified outcome, including idempotent completion and refusal of a claimed status |
| JourneyOperations.AppendKeepsChain | mcp_gpt_desk/src/analytical-journey.js:590-633 | one more event linked to the last leaves a verified chain and a header that agrees with it, and everything else as it was |
| JourneyOperations.StepIsChange | mcp_gpt_desk/src/analytical-journey.js:89-275 | every command leaves the journey alone, opens one phase, attaches one new receipt or seals one active phase, and does so only when that is permitted |
| JourneyInvariants.CreatedIsSound | mcp_gpt_desk/src/analytical-journey.js:22-87 | a created journey passes the integrity check |
| JourneyInvariants.StepIsSound | mcp_gpt_desk/src/analytical-journey.js:89-275 | each command keeps a sound journey sound |
| JourneyInvariants.ReachableIsSound | mcp_gpt_desk/src/analytical-journey.js:89-275 | every journey reachable by any sequence of start, record and complete passes the integrity check |
| JourneyInvariants.ReachableShape | mcp_gpt_desk/src/analytical-journey.js:426-488 | in every reachable journey the closed phases are a prefix of the catalog, only the next phase may be active and the rest is untouched |
| JourneyInvariants.ReachableStatusesAreEarned | mcp_gpt_desk/src/analytical-journey.js:552-575 | every closed status and reason list of a reachable journey is the assessment of the receipts held now |
| JourneyInvariants.ClosedForever | mcp_gpt_desk/src/analytical-journey.js:135-275 | a phase once closed, and the receipts it rests on, are the same after any further commands |
| JourneyInvariants.StepIsOrderly | mcp_gpt_desk/src/analytical-journey.js:89-275 | integrity together with the order of the active phase survives every command, whatever the receipts say |
| JourneyInvariants.IntegrityIsKeptExactly | mcp_gpt_desk/src/analytical-journey.js:426-488 | a journey that passes the integrity check passes it after every command exactly when its active phase, if any, comes right after the closed ones |
| JourneyInvariants.IntegrityAloneIsNotInductive | mcp_gpt_desk/src/analytical-journey.js:426-488 | a journey whose second phase is active while its first was never started passes the check, and starting the first yields one that fails it |
| AuditTrail.ReachableIsReplayed | mcp_gpt_desk/src/analytical-journey.js:590-633 | folding the audit trail of a reachable journey rebuilds its phases, receipts, revision and clock |
| AuditTrail.ChainsAgree | mcp_gpt_desk/src/analytical-journey.js:635-675 | two verified chains with the same last hash are equal event by event when event hashes do not collide |
| AuditTrail.HeadDeterminesJourney | mcp_gpt_desk/src/analytical-journey.js:635-675 | when hashes do not collide the last event hash determines a reachable journey completely |
| DecisionGate.CheckStructure | mcp_gpt_desk/src/analytical-decision-validator.js:31-88 | the structural violations are empty exactly when the matrix is decision-ready and a usable backend-hashed conclusion receipt carries the decision's hash |
| DecisionGate.CheckPolicy | mcp_gpt_desk/src/analytical-decision-validator.js:90-122 | policy violations arise only for a risk increase, and exactly from blocked phases and unavailable hard evidence; otherwise the same facts become warnings |
| DecisionGate.ValidateAnalyticalDecision | mcp_gpt_desk/src/analytical-decision-validator.js:15-154 | the verdict, for every journey, decision, intent and time, in terms of integrity, structure, policy and warnings |
| DecisionGate.RiskIncreaseNeedsReadiness | mcp_gpt_desk/src/analytical-decision-validator.js:31-153 | a risk increase is allowed exactly when the matrix says risk-increase-ready and the decision is proved, and then every other intent is allowed too |
| DecisionGate.ReadinessMeaning | mcp_gpt_desk/src/analytical-journey.js:277-353 | in a sound journey risk-increase-ready means all ten phases closed, no receipt blocked and no hard phase resting on unavailable required evidence |
| DecisionGate.RiskIncreaseExactly | mcp_gpt_desk/src/analytical-decision-validator.js:31-153 | for every reachable journey a risk increase passes exactly under those conditions on the receipts and a matching conclusion receipt |
| DecisionGate.AssessmentMeaning | mcp_gpt_desk/src/analytical-journey.js:552-575 | a phase is assessed blocked exactly when one of its receipts is, and otherwise unavailable exactly when a required one is |
| ContextReceipts.VerifyContextReceipt | mcp_gpt_desk/src/desk-ai-context-capability.js:271-339 | no violation is reported exactly when scope, tool, phase, status, result hash, counts, time and signature are all in order |
| ContextReceipts.ValidateEvidenceProtocol | mcp_gpt_desk/src/desk-ai-research-session.js:306-384 | a list is accepted exactly when every receipt is valid, numbered consecutively from one and not older than the one before; the catalog is complete exactly when it is first and COMPLETE |
| GreedySelection.SelectOrderedPrimary | mcp_gpt_desk/src/desk-ai-research-session.js:191-213 | the selected receipt is the last primary one of the phase before any later phase follows the first primary one after the cursor, and none is selected exactly when there is none |
| GreedySelection.ChoiceLosesNothing | mcp_gpt_desk/src/desk-ai-research-session.js:191-213 | whatever phases can still be traversed after the first primary receipt can be traversed after the chosen one |
| GreedySelection.GreedyStep | mcp_gpt_desk/src/desk-ai-research-session.js:191-213 | a greedy step neither creates nor destroys a traversal of the remaining phases |
| PhaseTraversal.TraversalSucceeds | mcp_gpt_desk/src/desk-ai-research-session.js:256-296 | start, record and complete in a row never fail on a standing journey with issuable evidence of the required kind, and leave exactly one receipt |
| ResearchSession.AdvanceContextPhase | mcp_gpt_desk/src/analytical-journey-integration.js:27-91 | a valid context receipt closes the next phase with the required kind and the availability its status maps to |
| ResearchSession.TraverseContext | mcp_gpt_desk/src/desk-ai-research-session.js:256-296 | the loop closes as many context phases as the longest prefix of phases whose primary receipts are an ordered subsequence |
| ResearchSession.PicksIncrease | mcp_gpt_desk/src/desk-ai-research-session.js:191-213 | the selected indexes strictly increase |
| SessionOutcome.BuildContextJourney | mcp_gpt_desk/src/desk-ai-research-session.js:215-304 | building the context journey succeeds for every accepted list whatever it is about; it rests on the greedy picks, one closed phase each, as many as primary receipts follow a complete catalog in order |
| SessionOutcome.PicksAreDetermined | mcp_gpt_desk/src/desk-ai-research-session.js:191-213 | the receipt list alone determines the greedy picks |
| AnalysisOutputs.OpportunityIsSafeExactly | mcp_gpt_desk/src/desk-ai-research-session.js:412-437 | JSON can carry the opportunity output copied from a decision it can carry exactly when no copied field is missing |
| AnalysisOutputs.ProposalIsRefused | mcp_gpt_desk/src/desk-ai-research-session.js:412-437 | an output with its plan under `execution_plan_proposal` is an object JSON can carry, and its opportunity output is not |
| SessionOutcome.ApplyValidatedOutputPhase | mcp_gpt_desk/src/analytical-journey-integration.js:145-215 | an output phase closes exactly when the source id and the summary are not blank and JSON can carry the payload, and its receipt carries the payload's own hash |
| SessionOutcome.BuildResearchSession | mcp_gpt_desk/src/desk-ai-research-session.js:28-105 | the session exists for every accepted list unless all eight phases are traversed and the output lacks a copied field or a legible summary; its journey rests on the greedy picks, and its decision passes the gate exactly when all eight phases are traversed and, for a risk increase, no pick is blocked and none of a hard phase unavailable |
| SessionOutcome.IncompleteOutputFailsExactly | mcp_gpt_desk/src/desk-ai-research-session.js:28-105 | with a legible summary the session of an accepted list exists exactly when a full traversal finds both outputs JSON can carry |
| SessionOutcome.ProposalMakesSessionFail | mcp_gpt_desk/src/desk-ai-research-session.js:412-437 | with a plan given as a proposal, or with a summary alone, there is a session exactly when the context was not traversed |
| CanonicalJson.EscapeRoundTrip | mcp_gpt_desk/src/desk-ai-context-capability.js:524-532 | reading back an escaped string gives the string and what follows the closing quotation mark, lone surrogates included |
| CanonicalJson.SamePrintAlike | mcp_gpt_desk/src/desk-ai-context-capability.js:524-532 | values equal up to key order print the same text |
| CanonicalJson.ValueIsUnambiguous | mcp_gpt_desk/src/desk-ai-context-capability.js:524-532 | a printed value can be read off the front of a text in one way only |
| CanonicalJson.PrintIsCanonical | mcp_gpt_desk/src/desk-ai-context-capability.js:524-532 | two JSON values print the same text exactly when they are equal up to the order of object keys |
| OutputCollector.Collector.Append | mcp_gpt_desk/src/codex-exec-adapter.js:694-717 | after any chunk the buffers hold exactly the last bytes received, up to the limit, and the counters and the truncation flag agree |
| OutputCollector.Collector.DropExcess | mcp_gpt_desk/src/codex-exec-adapter.js:705-716 | the loop drops bytes from the front until exactly the limit is left, splitting a buffer where needed |
| OutputCollector.Collector.NothingUnaccounted | mcp_gpt_desk/src/codex-exec-adapter.js:725-733 | retained and dropped bytes add up to the total, and bytes are dropped exactly when the output is truncated |
| OutputCollector.Collect | mcp_gpt_desk/src/codex-exec-adapter.js:682-735 | for any chunks the collector holds the last min(total, limit) bytes, truncated exactly when total exceeds limit |
| Telemetry.SplitGoesOn | mcp_gpt_desk/src/codex-exec-adapter.js:1056-1064 | keeping only the pending piece is enough to split a text that goes on, also when a line break is cut in two |
| Telemetry.Accumulator.Append | mcp_gpt_desk/src/codex-exec-adapter.js:1056-1064 | a chunk is read without an exception exactly when none of the lines it closes is JSON null, and the accumulator then stands where reading the whole text would |
| Telemetry.Accumulator.Finish | mcp_gpt_desk/src/codex-exec-adapter.js:1065-1068 | the pending piece is counted as a last line |
| Telemetry.StreamTelemetry | mcp_gpt_desk/src/codex-exec-adapter.js:1039-1082 | streaming any chunks yields the batch parse of the text they make, less pending pieces over 512 KiB, unless some line is JSON null |
| Telemetry.ChunkingDoesNotMatter | mcp_gpt_desk/src/codex-exec-adapter.js:1039-1082 | two ways of cutting a text whose pending lines fit give the same telemetry as the whole text |
| Telemetry.BatchThrowsExactly | mcp_gpt_desk/src/codex-exec-adapter.js:480-499 | the batch parse throws exactly when a null line precedes every thread start or follows every turn completion |
| Telemetry.StreamingAgreesExactly | mcp_gpt_desk/src/codex-exec-adapter.js:480-499 | streaming agrees with the batch parse exactly when there is no null line or one is in the way of a search |
| Telemetry.NullLineDivides | mcp_gpt_desk/src/codex-exec-adapter.js:1044-1055 | the line `null` between any line of a thread start and any line of a turn completion is counted by the batch parse and makes streaming throw |
| Candles.AggregateOfAggregates | mcp_gpt_desk/src/canonical-market-resampler.js:118-127 | aggregating the aggregates of consecutive parts is aggregating the parts laid end to end |
| WilderIndicators.EnrichWilderIndicators | mcp_gpt_desk/src/canonical-market-resampler.js:365-403 | the in-place loop with its running averages writes exactly the recursively defined indicators |
| WilderIndicators.IndicatorRanges | mcp_gpt_desk/src/canonical-market-resampler.js:398-401 | from the fifteenth bar on every RSI is between 0 and 100 and every ATR non-negative; earlier bars have neither |
| WilderIndicators.RsiIsGainShare | mcp_gpt_desk/src/canonical-market-resampler.js:398-400 | before rounding the RSI is the gains' share of gains and losses, in per cent, also when there are no losses |
| WilderIndicators.EnrichedIsCausal | mcp_gpt_desk/src/canonical-market-resampler.js:365-403 | indicators already computed do not change when bars are added |
| BarDerivation.DerivationIsUnique | mcp_gpt_desk/src/canonical-market-resampler.js:70-128 | the accepted minutes determine the bars, so the bars are exactly the aligned buckets whose every minute occurs once |
| BarDerivation.BarsAreCausal | mcp_gpt_desk/src/canonical-market-resampler.js:61-128 | the bars derivable at an earlier cutoff are an exact prefix of those derivable later |
| BarDerivation.CoarseBarsNeedFineBars | mcp_gpt_desk/src/canonical-market-resampler.js:12-144 | a bar of n times w minutes is emitted exactly when the n bars of w minutes inside it are |
| BarDerivation.CoarseBarsAggregateFineBars | mcp_gpt_desk/src/canonical-market-resampler.js:118-127 | its prices and volume are the aggregate of those bars' |
| MarketResampler.RowsArePartitioned | mcp_gpt_desk/src/canonical-market-resampler.js:26-68 | every input row is counted exactly once, as accepted or for one reason |
| MarketResampler.OrderDoesNotMatter | mcp_gpt_desk/src/canonical-market-resampler.js:38-68 | row counters and accepted minutes do not depend on the order of the rows |
| MarketResampler.FillBuckets | mcp_gpt_desk/src/canonical-market-resampler.js:38-68 | the loop counts each row and files each accepted minute in its bucket and nowhere else |
| MarketResampler.ExamineBucket | mcp_gpt_desk/src/canonical-market-resampler.js:72-101 | a bucket is rejected as duplicate exactly when a minute repeats, and complete exactly when every slot occurs once |
| MarketResampler.EmitBars | mcp_gpt_desk/src/canonical-market-resampler.js:70-128 | the bars emitted are exactly the complete buckets in time order, and the bucket counters partition the touched buckets |
| MarketDerivation.DeriveTimeframeFromClosedM1 | mcp_gpt_desk/src/canonical-market-resampler.js:12-144 | the runtime derivation succeeds exactly with a readable cutoff and a supported timeframe, with the bars and counters its accepted minutes determine |
| MarketDerivation.DeriveM5FromClosedM1 | mcp_gpt_desk/src/canonical-market-resampler.js:146-293 | the canonical derivation does the same for its stricter filters and then adds the indicators |
| MarketDerivation.DerivationIgnoresOrder | mcp_gpt_desk/src/canonical-market-resampler.js:26-128 | permuting the input changes neither bars nor counters |
| MarketDerivation.NoLookAhead | mcp_gpt_desk/src/canonical-market-resampler.js:173-271 | for cutoffs c1 <= c2 the M5 bars at c1, RSI and ATR included, are an exact prefix of those at c2 |
| MarketDerivation.FutureRowsAreIgnored | mcp_gpt_desk/src/canonical-market-resampler.js:196-203 | rows not yet closed at the cutoff add nothing |
| MarketDerivation.CoarseTimeframesCompose | mcp_gpt_desk/src/canonical-market-resampler.js:12-144 | M15, H1 and H4 bars are emitted exactly when all their M5 bars are, with the aggregate of their prices and volumes |
| MarketDerivation.RuntimeReadsStrictRow | mcp_gpt_desk/src/canonical-market-resampler.js:38-68 | a row passing the canonical filters is read the same by the runtime exactly when its `closed` field does not deny it |
| ExtraMinutes.BucketDiffersExactly | mcp_gpt_desk/src/canonical-market-resampler.js:70-128 | of two derivations, one with some minutes more, exactly one has a bar for a bucket those minutes fall into and that is complete with or without them; elsewhere they have the same bar or none |
| MarketDerivation.RuntimeAgreesWithCanonical | mcp_gpt_desk/src/canonical-market-resampler.js:12-269 | on rows passing the canonical filters the two derivations give the same M5 bars exactly when no row denied by `closed` falls into a bucket complete with those rows or without them, and such buckets are where they differ |
| MarketDerivation.DeniedMinuteDivides | mcp_gpt_desk/src/canonical-market-resampler.js:38-68 | of five such rows the last one is denied: the canonical derivation has a bar, the runtime none |
| CandleCursor.OpenTrade.AdvanceCursor | mcp_gpt_desk/src/broker-theoretical-execution-repository.js:372-393 | the cursor moves only forwards, only while the trade is open, and exactly when the candle is beyond it |
| CandleCursor.OpenTrade.ProcessExit | mcp_gpt_desk/src/broker-theoretical-execution-service.js:153-185 | one pass evaluates the first triggering candle of at most 500 past the cursor, or else moves the cursor to the last of them |
| CandleCursor.PassShrinksOrEnds | mcp_gpt_desk/src/broker-theoretical-candle-repository.js:26-39 | a pass with pending candles ends the scan at the first trigger or leaves strictly fewer pending |
| CandleCursor.ScanByPasses | mcp_gpt_desk/src/broker-theoretical-execution-service.js:153-185 | repeated passes end exactly where a one-by-one scan of all pending candles does |
| CandleCursor.RunEndsAtFirstTrigger | mcp_gpt_desk/src/broker-theoretical-candle-repository.js:26-39 | the same over a market that grows between passes, as long as nothing is inserted behind the cursor |
| TheoreticalLedger.Repository.RecordEntryFill | mcp_gpt_desk/src/broker-theoretical-execution-repository.js:264-299 | the transaction answers and changes the tables as specified, doing nothing on an intent already terminal |
| TheoreticalLedger.Repository.RecordEntryExpired | mcp_gpt_desk/src/broker-theoretical-execution-repository.js:301-330 | the same for an expiry, which never touches trades |
| TheoreticalLedger.Repository.RecordExitFill | mcp_gpt_desk/src/broker-theoretical-execution-repository.js:436-465 | the same for an exit, refused under review, on a closed trade and after an administrative resolution |
| TheoreticalLedger.Repository.RecordReviewRequired | mcp_gpt_desk/src/broker-theoretical-execution-repository.js:467-483 | the same for a review flag |
| TheoreticalLedger.NewEntryIsFirst | mcp_gpt_desk/src/broker-theoretical-execution-persistence.js:106-114 | an entry result that is acted on concerns an intent with neither a terminal event nor a trade |
| TheoreticalLedger.RunIsSound | mcp_gpt_desk/src/broker-theoretical-execution-repository.js:264-483 | over every run each intent has at most one terminal event, trades exist only after their fill, and open plus closed stays the entry quantity |
| TheoreticalLedger.RunKeepsEnded | mcp_gpt_desk/src/broker-theoretical-execution-repository.js:436-483 | over every run a closed trade stays as it is, one under review never fills, a resolved one never changes, and open lots never grow |
| TheoreticalLedger.OneTerminalPerIntent | mcp_gpt_desk/src/broker-theoretical-execution-persistence.js:106-114 | an intent to which no portfolio intent is linked never has two terminal events bearing its id |
| TheoreticalLedger.LinkedIntentTwiceTerminal | mcp_gpt_desk/src/broker-theoretical-execution-persistence.js:494-498 | filling or expiring a portfolio intent gives its linked legacy intent a second terminal event exactly when that one had one, because results carry no link |
| TheoreticalLedger.TerminatedThroughLink | mcp_gpt_desk/src/broker-theoretical-execution-persistence.js:494-498 | whenever a legacy intent and a portfolio intent linked to it can both be filled or expired, doing both, the legacy intent first, ends the legacy intent twice |
| TheoreticalLedger.LinkedIntentFilledTwice | mcp_gpt_desk/src/broker-theoretical-execution-persistence.js:494-498 | such runs from a concrete sound state: filled twice, and filled then expired |
| TradeBook.Ledger.PersistManagementFill | mcp_gpt_desk/src/broker-execution-repository.js:1239-1269 | the fill of a management update, limited by open lots and by what is already recorded |
| TradeBook.Ledger.RecordManagementBrokerUpdate | mcp_gpt_desk/src/broker-execution-repository.js:755-828 | a known key reuses its order and looks at the fill again; a new one is stored first |
| TradeBook.Ledger.PersistProtectiveSnapshotFill | mcp_gpt_desk/src/broker-execution-repository.js:1005-1076 | the fill of a protective order seen filled in a snapshot, and the quantity it closes |
| TradeBook.Ledger.RecordTheoreticalExit | mcp_gpt_desk/src/broker-theoretical-execution-persistence.js:301-342 | the theoretical exit path |
| TradeBook.Ledger.SettleFromSnapshot | mcp_gpt_desk/src/broker-execution-repository.js:839-872 | the unpriced settlement guarded by the revision it read |
| TradeBook.Ledger.RecordEntryFill | mcp_gpt_desk/src/broker-execution-repository.js:1196-1204 | an entry fill sets open lots and entry price to the cumulative figures and leaves the revision alone |
| TradeBook.SettleProtectiveExits | mcp_gpt_desk/src/broker-execution-repository.js:874-925 | all protective fills of one snapshot together never close more than the broker no longer holds |
| TradeBook.StepIsSound | mcp_gpt_desk/src/broker-execution-repository.js:839-1269 | every exit path conserves open plus closed, never opens lots, and closes the trade exactly when none are left |
| TradeBook.RunIsSound | mcp_gpt_desk/src/broker-execution-repository.js:839-1269 | the same over every run of the four paths in any interleaving |
| TradeBook.SettlementConservesExactly | mcp_gpt_desk/src/broker-execution-repository.js:839-872 | a settlement conserves lots exactly when the open quantity it read is still the open quantity |
| TradeBook.EntryBehindReadLosesLots | mcp_gpt_desk/src/broker-execution-repository.js:839-872 | ten lots read, two more entered, then a settlement at three: two lots are gone |
| TradeBook.EntriesAndExitsConserve | mcp_gpt_desk/src/broker-execution-repository.js:839-1269 | over every run of exits and of entry fills before them, open plus closed is the quantity entered last, as long as no settlement writes on an outdated read |
| TradeBook.AverageIsWeighted | mcp_gpt_desk/src/broker-execution-repository.js:1246-1253 | in a run of priced exits average exit price times closed quantity is the sum of quantity times price |
| TradeBook.SettlementKeepsAverageExactly | mcp_gpt_desk/src/broker-execution-repository.js:849-860 | an unpriced settlement keeps that identity exactly when the average is still zero |
| TradeBook.SettledLotsCountedAtAverage | mcp_gpt_desk/src/broker-execution-repository.js:849-860 | four lots exited at a hundred and four settled: the average counts eight lots at a hundred |
| TradeBook.RefMeansExhausted | mcp_gpt_desk/src/broker-execution-repository.js:1255-1262 | with one update per key, a fill reference on file means the update has nothing left to give |
| TradeBook.NoFillIsDropped | mcp_gpt_desk/src/broker-execution-repository.js:1255-1262 | with one update per key the conflict clause never drops a fill that closes lots |
| TradeBook.RunIsSettled | mcp_gpt_desk/src/broker-execution-repository.js:755-828 | over any such run, stop moves among the deliveries, what is recorded for an order stays within what was reported for it, and every delivery is exhausted |
| TradeBook.ReplayAfterRun | mcp_gpt_desk/src/broker-execution-repository.js:760-770 | replaying any delivery of the run, a reduction or a stop move asked for in time, changes nothing |
| TradeBook.KeyReusedDropsFill | mcp_gpt_desk/src/broker-execution-repository.js:760-770 | under a key already on file the fill is lost while the trade still moves exactly when open lots remain and the cumulative quantity has grown |
| TradeBook.GrowingKeyLosesFill | mcp_gpt_desk/src/broker-execution-repository.js:760-770 | so one key reporting two lots and then five closes five and records two |
| TradeBook.ProtectiveRepeatDropsFill | mcp_gpt_desk/src/broker-execution-repository.js:1051-1060 | a repeated protective reference loses its fill while the trade still moves exactly when open lots, a missing broker quantity and an unrecorded remainder exist |
| TradeBook.ProtectiveOrderOverApplied | mcp_gpt_desk/src/broker-execution-repository.js:1028-1060 | so three snapshots can close eight lots on a protective order filled for five |
| EntryFills.EntryLedger.RecordBrokerUpdate | mcp_gpt_desk/src/broker-execution-repository.js:1078-1136 | an update under a known key changes nothing; otherwise the stored figures are replaced name by name, unless the order has ended, and keys, trade and fills change as specified |
| EntryFills.EntryLedger.PersistEntryFillAndTrade | mcp_gpt_desk/src/broker-execution-repository.js:1183-1237 | the incremental fill and the trade's cumulative quantity and average, from the figures stored before the update |
| EntryFills.DuplicateChangesNothing | mcp_gpt_desk/src/broker-execution-repository.js:1084-1092 | a delivery under a known key changes nothing |
| EntryFills.IncrementValue | mcp_gpt_desk/src/broker-execution-repository.js:1185-1194 | quantity times incremental price is the growth of average times quantity |
| EntryFills.IncreaseIsRemembered | mcp_gpt_desk/src/broker-execution-repository.js:1183-1194 | after an increase the lookup finds its quantity exactly when the order has not ended and no older figure stands under the name looked up first; otherwise it finds the quantity it found before |
| EntryFills.AverageIsRemembered | mcp_gpt_desk/src/broker-execution-repository.js:1183-1194 | the same for its average, unless that is the average found before |
| EntryFills.FillsTelescope | mcp_gpt_desk/src/broker-execution-repository.js:1078-1237 | over every run of updates that are redeliveries, priced increases later lookups will find, or leave the stored quantity alone, recorded quantities add up to the stored cumulative quantity, and quantity times price to average times quantity less changes of the average alone |
| EntryFills.TotalIsLargestReported | mcp_gpt_desk/src/broker-execution-repository.js:1078-1237 | and that quantity is the largest any update of the run has reported |
| EntryFills.NoCorrections | mcp_gpt_desk/src/broker-execution-repository.js:1185-1194 | those changes vanish when no stored average changes without new quantity |
| EntryFills.IncreaseForgottenExactly | mcp_gpt_desk/src/broker-execution-repository.js:1106-1116 | an increase is recorded in full, and fills and stored quantity agree after it exactly when the order had not ended and the lookup will find it |
| EntryFills.IncreaseLostExactly | mcp_gpt_desk/src/broker-execution-repository.js:1183-1189 | an increase the lookup will find is recorded exactly when a positive average comes with it |
| EntryFills.LateIncreaseCountedTwice | mcp_gpt_desk/src/broker-execution-repository.js:1106-1116 | so an order cancelled at two lots and then reported at three twice records four |
| EntryFills.MixedSpellingCountedTwice | mcp_gpt_desk/src/broker-execution-repository.js:1185-1189 | and so does a live order whose quantity comes first under one name, then under the other |
| EntryFills.UnpricedIncreaseIsLost | mcp_gpt_desk/src/broker-execution-repository.js:1183-1189 | of three lots reported first without a price two are recorded, whatever comes later |
| EntryFills.CorrectedAverageMovesValue | mcp_gpt_desk/src/broker-execution-repository.js:1185-1194 | a corrected average moves average times quantity away from what the fills are worth |
| EntryFills.BlankAverageIsForgotten | mcp_gpt_desk/src/broker-execution-repository.js:1185-1194 | an empty text for the average makes it count as zero |
| ExecutionOutbox.Outbox.ApproveIntent | mcp_gpt_desk/src/broker-execution-repository.js:498-534 | approval succeeds exactly for a known approval or an approvable intent, and adds at most one row |
| ExecutionOutbox.Outbox.LeaseOutbox | mcp_gpt_desk/src/broker-execution-repository.js:683-694 | a lease is granted exactly on a pending row or one whose lease has expired, for 5 to 120 seconds |
| ExecutionOutbox.Outbox.CompleteOutbox | mcp_gpt_desk/src/broker-execution-repository.js:696-711 | a completion succeeds exactly for a reportable status and the stored bridge and token |
| ExecutionOutbox.RejectionIsFinal | mcp_gpt_desk/src/broker-execution-repository.js:536-548 | rejecting touches the status of its own intent only, reaches it exactly when it has not been sent, acknowledged or ended, and no later approval of it goes through |
| ExecutionOutbox.CancellationIsFinal | mcp_gpt_desk/src/broker-execution-repository.js:536-548 | cancelling touches rows of its own intent only, leaves exactly the delivered, acknowledged and failed ones, and no such row is leased in any later run |
| ExecutionOutbox.AcknowledgementIsFinal | mcp_gpt_desk/src/broker-execution-repository.js:1127-1129 | after the acknowledgement the intent is never approved and its row never leased again, and the row is acknowledged exactly when it had not failed or been cancelled |
| ExecutionOutbox.RunIsSound | mcp_gpt_desk/src/broker-execution-repository.js:498-711 | under any interleaving each intent has at most one row, and of two leases of a row the first has expired when the second is granted |
| ExecutionOutbox.LeftForGood | mcp_gpt_desk/src/broker-execution-repository.js:683-711 | a row that has left pending and leased never becomes leasable again |
| ExecutionOutbox.CompletesExactly | mcp_gpt_desk/src/broker-execution-repository.js:696-711 | a completion succeeds exactly with bridge and token of the newest lease, whatever the row's status |
| ExecutionOutbox.CancelledRowCompletesExactly | mcp_gpt_desk/src/broker-execution-repository.js:696-711 | so a cancelled row is still delivered, and its rejected intent sent, exactly by the bridge that held its newest lease |
| ExecutionOutbox.RejectedIntentIsSent | mcp_gpt_desk/src/broker-execution-repository.js:536-711 | such a run |
| PositionKeys.PositionKeyIsIdempotent | mcp_gpt_desk/src/broker-execution-normalizers.js:14-25 | normalizing a contract name twice is normalizing it once |
| SnapshotReconciliation.AggregateSignedPositions | mcp_gpt_desk/src/broker-execution-service.js:1097-1123 | one net per listed key, the signed sum of the quantities under it |
| SnapshotReconciliation.ComparePositions | mcp_gpt_desk/src/broker-execution-service.js:997-1035 | the position mismatches are exactly those the two nets under a key call for, at most one per key, with their kind |
| SnapshotReconciliation.CompareSnapshots | mcp_gpt_desk/src/broker-execution-service.js:990-1037 | no mismatch exactly when the reference sets are equal and the nets agree under every key, absent meaning zero; one mismatch per order reference known to one side only, then the position mismatches |
| SnapshotReconciliation.MismatchesIgnoreOrder | mcp_gpt_desk/src/broker-execution-service.js:990-1037 | two comparisons of the same orders and positions, listed in different orders, contain the same mismatches |
| SnapshotReconciliation.KeysStandForAccounts | mcp_gpt_desk/src/broker-execution-service.js:1160-1162 | when no account shadows another, agreement under every key is agreement for every account and instrument |
| SnapshotReconciliation.FaithfulExactly | mcp_gpt_desk/src/broker-execution-service.js:1160-1162 | for a set of accounts that is so for all positions exactly when no account is another one followed by a single colon, or by two colons and text an instrument name can start with |
| SnapshotReconciliation.ShadowsCollide | mcp_gpt_desk/src/broker-execution-service.js:1160-1162 | of any two accounts where one does shadow the other, one lot each can share a key, so that their difference is not found |
| SnapshotReconciliation.CollisionExample | mcp_gpt_desk/src/broker-execution-service.js:1160-1162 | account A in instrument B::A and account A::B in A are such a pair |

## Left out

- Schema versions, issuer names and other constants that every record repeats.
- Audit event types are one with their details; evidence ratios and tool-call counts of the coverage and progress reports are not computed.
- Evidence kinds other than the ten required ones are numbered, and code lists and free-form names are taken as already matching their pattern; a value its normalizer rejects is `None`.
- `buildDeskAiContextCapability` and the minting of capabilities: only their verification matters to the session.
- Context receipts that carry an `evidence_kind` of their own, which would be recorded instead of the phase's required kind: the context results are about receipts without one.
- Array holes, and reading a field through a circular reference in an analytical output; such references are refused like every value JSON cannot carry.
- The default cutoff search over twelve envelope fields: the envelope's cutoff is a parameter that may be missing.
- The decoding of chunks to text in the telemetry accumulator and of the collector's bytes in `text()`.
- Floating-point rounding of prices, volumes and indicators; the final rounding to eight digits is modelled as rounding of reals.
- Date parsing, symbol case folding and the hash over the source rows in the resampler; the provider audit.
- Upper-casing of letters outside ASCII in contract names.
- The account and instrument texts a position mismatch shows are those of its key; only the key is modelled.
- Expiring candidates from the candle window (`completeEntryWindow`) and the choice of entry candidates.
- Candles of several feeds for one minute: one candle per minute is a requirement of the cursor results.
- Broker trades stored under the trade id of a theoretical entry, and legacy and portfolio intents sharing an id: the theoretical ledger starts without them.
- Stop prices, protection confirmation, broker order rows and outcomes materialized after an exit: they do not change lots or fills. Of a stop move the new revision is modelled.
- Entry fills after exits: `EntriesAndExitsConserve` is about entry fills that come before any exit.
- Stored figures other than numbers, numeric texts, empty texts and null: other texts, infinities among them, count as no number.
- The management outbox, whose lease and completion are the same statements as the execution outbox's.
- The service's risk recheck between peeking at a row and leasing it: any bridge may lease any leasable row here.

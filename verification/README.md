# IntelliStock: machine-checked models of the platform's core

IntelliStock trades from a research graph, replays that trading in backtests, and stores enough
evidence to promote or reject a strategy. This project models, in Dafny, the parts whose
correctness rests on state, interleaving, recursion or arithmetic, and proves what each of them
is for.

- **Replay store.** `ReplayModel` holds matrices, builds, fixtures and receipts, their content
  addresses and the mutable `FixtureBuild`. `ReplayStore` is the in-memory store. `ReplayDurable`
  is the durable store: any number of store objects over one set of backend tables, cut off after
  any single insert. `FaultyStore` is one such object whose backend may raise at one call.
  `IsoTime` is the order of timestamps as texts. `EvidenceLifecycle` is the run that drives the
  store.
- **Result store.** `ResultStore` is the split of one result document over three tables and its
  reassembly. `ResultRuns` is any run of ticks, heartbeats and finalizations with crashes and restarts.
  `HistorySampling` is the cap that reassembly applies.
- **Index-core sleeve.** `CoreSleeve` is the allocation decision and the funding-release ledger,
  `CoreSleeveTheorems` what holds of one bar and of whole runs, `SatelliteShare` the satellite's
  design share and ceiling.
- **Mark stream.** `MarkStream` is the two-thread subscription protocol as interleaved steps.
- **Strict JSON.** `JsonTree` is the bounded normaliser, `FrozenState` the tree difference and the
  one allowed treatment, `StateRows` the order-free row hash and the content-addressed manifest,
  `ExecutionSnapshot` the signed queue envelope.
- **Look-ups.** `PriceCursor` and `BarEvents` are the incremental look-ups against a full scan,
  `RangeSplitter` the bulk fetch over a date range, `EdgarFilings` point-in-time filings and
  factors.
- **Limits and figures.** `LoginLimiter` is the sliding-window limiter and the login route that uses
  it, `RiskMetrics` the drawdown,
  sampled curve and churn, `BacktestSummary` the end marks, per-stock profit and price series.
- `KeyOrder` holds texts as code points, their order, and the sorted enumeration of a set; `Options`
  and `Sets` hold what several modules share.

Objects the source updates in place are classes whose methods are proved against value functions;
the theorems are lemmas about those functions. Loops of the source are loops here. Hashes and
signatures are free constructors, so a digest determines its content. Money, weights and factors
are real numbers.

## Findings

Places where the code does not do what its documentation or design promises. Each names an input, a
run or a schedule that fails and the condition under which the promise holds.

- A symbol removed and added again around the run loop's ghost removal stays subscribed in the
  book and carries nothing on the wire (`MarkStream.ReaddedSymbolCanBeLost`). The loss needs a
  `set_symbols` that brings back a symbol the loop is about to unsubscribe: without one the wire
  carries exactly the book's symbols (`MarkStream.UnrevivedStreamIsExact`), and after one there is
  always a continuation that loses the symbol (`MarkStream.RevivedGhostCanBeLost`).
- "At or before its decision" compares ISO texts, and a stamp with a fraction sorts before the
  whole second it comes after (`IsoTime.FractionSlipsThrough`, `IsoTime.AsOfCheckExact`).
- The comment at `backend/backtest_evidence_runtime.py:314-315` says that a durable fixture never
  outlives a failed finalization. A new one does exactly when every check passes, its address is
  new and the backend fails at the manifest's insert, its write done, or at the receipt's; a
  refusal of the receipt itself is never the cause (`EvidenceLifecycle.FinalizeOrAbort`).
- A recording run whose fixture is sealed can only raise when `succeed` is called again
  (`EvidenceLifecycle.EvidenceRunLifecycle.Succeed`).
- A finalization cut off between its statements shows an empty array instead of the live rows
  (`ResultStore.HalfFinalizedShowsEmpty`), and one that is repeated and cut off shows the live rows
  instead of either final list (`ResultStore.RefinalizedShowsLive`).
  `ResultStore.SeamlessUnlessCutShort` says exactly at which cuts a reader sees what was there
  before or the new list. Running the write again completes it (`ResultStore.FinalizeRetry`,
  `ResultStore.TerminalRetry`).
- Not every document survives the split and reassembly: `ResultStore.DocumentRoundTrip` gives the
  exact condition.
- The cursor caches compare only the length of a bar list. A list replaced by one as long is
  answered from the old bars (`PriceCursor.ReplacedListIsStale`). Every answer is the current one
  exactly when the list became shorter or the part seen before holds the same well-formed bars
  (`PriceCursor.AnswersAreCurrent`).
- The label cache of the bar events compares only identity and length
  (`BarEvents.StaleLabelHidesBar`). On lists in order of their labels, answers are the current ones
  for whatever the bars hold exactly when no label has changed (`BarEvents.LabelsExact` for a list,
  `BarEvents.CallsExact` for whole calls).
- A window of records cut off at the deepest split is warned about once; from then on the cache
  answers it in silence (`RangeSplitter.SecondCallIsSilent`). Over any run of calls an answer is
  complete unless a window inside its range was warned about, now or before
  (`RangeSplitter.LossIsAnnounced`), and of a service whose answers at the cap do lack a record it is
  complete exactly when the call warns about nothing, where nothing inside was warned about before
  (`RangeSplitter.LossIffWarned`).
- A later filing under a preferred XBRL tag hides what was filed earlier under another
  (`EdgarFilings.LateTagRewritesThePast`). The exact condition is `EdgarFilings.ReadingCommutes` for a
  reading and `EdgarFilings.TimeTravelExact` for the periods built from four of them.
- Checking and recording a login are two separate steps. With p attempts in flight a window can hold
  the limit plus p - 1 failures and never more (`LoginLimiter.WindowBound`,
  `LoginLimiter.BoundIsAttained`), so the limit itself holds exactly when at most one is
  (`LoginLimiter.LimitHoldsIffOneInFlight`).
- With no regime known, an enabled overlay with a blank name is taken for the regime's own. The
  reading is still the cautious one exactly when the base configuration has a target, no enabled
  overlay is blank-named, no enabled overlay names a target, or the largest target named is at most
  what the blank-named ones give, which is the default when they name none
  (`SatelliteShare.WarmUpIsCautious`).
- `downsample` of `backend/backtest_risk_metrics.py` promises to retain the first and last points;
  with a cap of one point it keeps only the last (`RiskMetrics.Downsample`).

## Model

| member | source | states |
|---|---|---|
| `ReplayModel.ContentHashInjective` | backend/model_evidence.py:369-403 | two ledgers with the same content hash hold the same records |
| `ReplayModel.LedgerOfRecords` | backend/model_evidence.py:372-400 | publishing a ledger's own records one by one gives the same ledger |
| `ReplayModel.StoredFixtureReadable` | backend/backtest_replay.py:362-478 | a stored fixture document reads back, as itself, exactly when its build address is the one its contents derive |
| `ReplayModel.FromDocExact` | backend/backtest_replay.py:362-478 | the exact conditions under which a stored fixture document is read |
| `ReplayModel.ChainExact` | backend/backtest_replay.py:369-383 | a point-in-time chain is in order exactly when no evidence is after its decision and no decision after the next, as texts |
| `ReplayModel.ConstructibleExact` | backend/backtest_replay.py:362-420 | the exact conditions under which a fixture is constructed |
| `ReplayModel.ReceiptExact` | backend/backtest_replay.py:613-626 | a receipt joins a constructed fixture of its own matrix with an arm that both declare |
| `ReplayModel.FixtureBuild.RecordPit` | backend/backtest_replay.py:535-546 | an entry is appended exactly when the build is open, the evidence is at or before its decision and decisions stay in order; otherwise nothing changes |
| `ReplayModel.FixtureBuild.RecordModelRow` | backend/backtest_replay.py:548-557 | a row of a declared arm enters the ledger and that arm's request set, unless it contradicts a row already there |
| `ReplayModel.FixtureBuild.AdoptSessionOccurrences` | backend/backtest_replay.py:559-574 | ids are bound one by one and the first one absent from the ledger stops the call, keeping those before it |
| `ReplayModel.FixtureBuild.Seal` | backend/backtest_replay.py:576-587 | sealing never fails, returns the same fixture every time, and that fixture reads back from its stored document |
| `ReplayStore.ScreenProperties` | backend/backtest_replay.py:787-823 | screening that succeeds keeps every stored row and adds exactly the unpublished ones |
| `ReplayStore.ScreenRejectsContradictions` | backend/backtest_replay.py:787-823 | screening is refused exactly when a record contradicts a stored row or another record under the same id |
| `ReplayStore.TwinHasNothingToPublish` | backend/backtest_replay.py:787-836 | a fixture that claims a published address has no unpublished rows left, which is why the late divergence check changes nothing |
| `ReplayStore.PublishedMeansLoadable` | backend/backtest_replay.py:731-759 | in every later state every declared arm of a published fixture loads, with exactly its request set and the rows it was published with |
| `ReplayStore.InMemoryReplayStore.PublishMatrix` | backend/backtest_replay.py:706-714 | a matrix is added under its own address and nothing else changes; publishing it again changes nothing |
| `ReplayStore.InMemoryReplayStore.ReserveBuild` | backend/backtest_replay.py:761-772 | a build address keeps its first declaration for ever and refuses a different one |
| `ReplayStore.InMemoryReplayStore.PublishCall` | backend/backtest_replay.py:777-785 | a call row is added once and a contradicting row for the same id is refused without a change |
| `ReplayStore.InMemoryReplayStore.PublishFixture` | backend/backtest_replay.py:787-836 | publication succeeds exactly when every check passes, writes the rows before the fixture, and leaves the store as it was whenever it raises |
| `ReplayStore.InMemoryReplayStore.PublishReceipt` | backend/backtest_replay.py:838-850 | a receipt is stored only for a published fixture and never replaced |
| `ReplayStore.InMemoryReplayStore.LoadReplayFixture` | backend/backtest_replay.py:731-759 | loading succeeds for exactly the published fixtures and their declared arms |
| `ReplayStore.InMemoryReplayStore.BeginBuild` | backend/backtest_replay.py:484-529 | a build is begun exactly for a registered matrix, a declared window and scenario, an ordinal within the registered count and an address not reserved for another declaration; it reserves the address its fixture will carry |
| `ReplayDurable.CrashSafe` | backend/backtest_replay.py:853-976 | however many store objects interleave and wherever the run is cut off, every fixture row has its matrix, its reserved build and all arms' call rows hashing to its ledger, and every receipt has its fixture |
| `ReplayDurable.MatrixStep` | backend/backtest_replay.py:870-877 | the first matrix under an address stays, nothing else changes, and it is cached exactly when it is the one published |
| `ReplayDurable.BuildStep` | backend/backtest_replay.py:935-942 | the same for the declaration of a build |
| `ReplayDurable.CallStep` | backend/backtest_replay.py:950-958 | the same for a call row |
| `ReplayDurable.LookUps` | backend/backtest_replay.py:879-922 | after a look-up the cache holds what it held and what the backend has under that key |
| `ReplayDurable.ManifestReady` | backend/backtest_replay.py:960-966 | when the last call row is in, the manifest may follow: everything it refers to is in the backend, and the repeated in-memory check has nothing left to publish |
| `ReplayDurable.LoadExactly` | backend/backtest_replay.py:870-933 | a published fixture's declared arm loads through any store object exactly when it is cached there or its document's build address is derived, and gives exactly its request set |
| `ReplayDurable.SealedStaysLoadable` | backend/backtest_replay.py:731-759 | a sealed fixture, once published, loads in every later state through every store object, a fresh one included, with its original rows |
| `ReplayDurable.PublishedIsStored` | backend/backtest_replay.py:960-966 | when publication ends without a divergence the manifest is in the backend and in the publishing object's cache |
| `IsoTime.TextOrderIsTimeOrder` | backend/backtest_replay.py:51-61 | text order of canonical stamps is time order except within one second, where a fraction sorts first |
| `IsoTime.AsOfCheckExact` | backend/backtest_replay.py:535-546 | the stored at-or-before check is right exactly outside that case |
| `IsoTime.FractionSlipsThrough` | backend/backtest_replay.py:374-378 | evidence half a second after a decision on the whole second is accepted as at or before it |
| `FaultyStore.StoreObject.PublishFixture` | backend/backtest_replay.py:935-966 | whether a publication raises, and whether its manifest reaches the table, is decided by the tables and the cache before it and by which of its backend calls fails |
| `FaultyStore.StoreObject.PublishReceipt` | backend/backtest_replay.py:968-976 | the same for a receipt, which touches no fixture row |
| `EvidenceLifecycle.EvidenceRunLifecycle.Succeed` | backend/backtest_evidence_runtime.py:241-324 | success is the only terminal it makes, with fixture and receipt stored; a raise leaves a fixture that was not there before exactly when the checks pass, the address is new and the backend fails at the manifest's insert, its write done, or at the receipt's; after a terminal, or with the build already sealed, it only raises |
| `EvidenceLifecycle.EvidenceRunLifecycle.Abort` | backend/backtest_evidence_runtime.py:326-352 | the first abort records the ineligible outcome, a later one changes nothing |
| `EvidenceLifecycle.EvidenceRunLifecycle.GuardedExit` | backend/backtest_evidence_runtime.py:354-366 | whatever happened before, a forced exit leaves a terminal |
| `EvidenceLifecycle.RunCalls` | backend/backtest_evidence_runtime.py:241-366 | over any sequence of calls on the real store there is at most one terminal, and from then on neither it nor the tables change |
| `EvidenceLifecycle.FinalizeOrAbort` | backend/backtest_evidence_runtime.py:312-352 | an aborted finalization leaves a new durable fixture behind exactly under that condition, and never without a backend fault |
| `ResultStore.MergeTwice` | backend/backtest_result_store.py:189-208 | writing the same patch twice is writing it once, at any depth |
| `ResultStore.MergedDocReads` | backend/db/merge.py:44-64 | read under any field and path of keys, a merged document holds the patch's values that are no objects, its new objects whole, and everything else the document held before |
| `ResultStore.BaseIsRead` | backend/db/merge.py:44-64 | where the patch's objects stop at an absent key the merge reads what the base holds there, at any depth |
| `ResultStore.ProgressExact` | backend/backtest_result_store.py:189-208 | the hot row is made or merged into exactly when the document has a hot key; what it held beside those keys stays |
| `ResultStore.MetadataExact` | backend/backtest_result_store.py:297-322 | a terminal write merges the metadata of an existing row, makes none and touches no other |
| `ResultStore.ListOfExact` | backend/backtest_result_store.py:76-86 | what is stored of a step array: a list as it is, a text by characters, an object by its keys, nothing of a false value |
| `ResultStore.SplittableExact` | backend/backtest_result_store.py:76-86 | a document can be split unless a step array is a true boolean or a nonzero number |
| `ResultStore.LiveSplitExact` | backend/backtest_result_store.py:89-108 | a document written live into an empty store leaves each array as the live rows 1, 2, ... |
| `ResultStore.EntriesOfExactly` | backend/backtest_result_store.py:152-170 | rows 1..m read in order of position are the first m source entries |
| `ResultStore.AppendExact` | backend/backtest_result_store.py:111-129 | appending from a watermark not past the stored rows leaves exactly the source, however much of it was stored before |
| `ResultStore.FinalizeExact` | backend/backtest_result_store.py:131-140 | finalizing leaves exactly the given list and touches no other row |
| `ResultStore.FinalizeRetry` | backend/backtest_result_store.py:131-140 | a finalization cut off after any of its statements is completed by running it again |
| `ResultStore.FinalizedShows` | backend/backtest_result_store.py:152-184 | a finalized kind shows its final list, whatever live rows exist |
| `ResultStore.LiveAppendHidden` | backend/backtest_result_store.py:111-184 | live rows that arrive after a finalization never change what is shown |
| `ResultStore.LiveShows` | backend/backtest_result_store.py:152-184 | before a finalization the reader sees the capped source prefix, as the single document would have held it |
| `ResultStore.CapsShow` | backend/backtest_result_store.py:173-184 | the last 1000 trades, the last 500 log lines, a sample of 3000 portfolio values and all of the rest are shown |
| `ResultStore.HalfFinalizedShowsEmpty` | backend/backtest_result_store.py:131-184 | after the marker and before the list an empty array is shown |
| `ResultStore.RefinalizedShowsLive` | backend/backtest_result_store.py:131-184 | a finalized kind whose finalization is repeated and dies after the DELETE shows the capped live rows again |
| `ResultStore.SeamlessUnlessCutShort` | backend/backtest_result_store.py:131-184 | at a cut the reader sees the old view or the new final list exactly when it is not one after the DELETE of a final list the live rows do not show, nor one after the marker with a nonempty list and something shown before |
| `ResultStore.TerminalRetry` | backend/backtest_result_store.py:297-322 | a terminal write cut off after any of its statements, or finished, ends in the same three tables when it is run again |
| `ResultStore.DocumentRoundTrip` | backend/backtest_result_store.py:76-108 | a document written final into an empty store and reassembled is unchanged exactly when its four stub arrays are there and every step array is a list |
| `ResultStore.AssembledExact` | backend/backtest_result_store.py:430-457 | key by key: an array is the one shown, a hot key the hot row's, every other key the metadata's |
| `ResultStore.FieldAgreesWithDocument` | backend/backtest_result_store.py:430-474 | one array read alone is the array of the assembled document exactly when something is stored for it or the metadata holds nothing under its key |
| `ResultStore.BacktestStore.WriteSplit` | backend/backtest_result_store.py:89-108 | a document that cannot be split is refused before any write; otherwise the three tables hold its three parts |
| `ResultStore.BacktestStore.WriteTerminal` | backend/backtest_result_store.py:297-322 | metadata merged and every array of the result finalized, or nothing at all |
| `ResultStore.BacktestStore.FinalizeSteps` | backend/backtest_result_store.py:131-140 | the three statements leave the state the theorems above are about |
| `ResultStore.BacktestStore.Heartbeat` | backend/backtest_result_store.py:224-246 | the two liveness fields are merged and the new log lines appended, nothing else |
| `ResultStore.BacktestStore.WriteProgressTick` | backend/backtest_result_store.py:249-283 | each listed source is stored from its watermark on and its watermark moved; the log kind is refused before any write |
| `ResultStore.BacktestStore.ResumeFromCriticalPause` | backend/backtest_result_store.py:377-395 | only a run paused by the critical guard is resumed, otherwise nothing changes |
| `ResultStore.BacktestStore.Assemble` | backend/backtest_result_store.py:430-457 | the document is put together exactly when the metadata row exists |
| `ResultRuns.ExactlyOnce` | backend/backtest_result_store.py:111-149 | over any run of ticks, heartbeats, crashes between insert and watermark, restarts from stale or re-read watermarks and finalizations cut off anywhere, the live rows are exactly 1..m with the first m source entries; that prefix is what is shown until a marker is in, and the final list once it is written |
| `ResultRuns.FinalForEver` | backend/backtest_result_store.py:131-184 | a finalized kind shows its final list in every later state, whatever live rows arrive and whatever else is finalized, until it is finalized again |
| `ResultRuns.CompleteAfterTick` | backend/backtest_result_store.py:249-283 | after a tick that returns nothing of the listed sources is missing |
| `ResultRuns.ReseedIsStored` | backend/backtest_result_store.py:143-149 | the watermark re-read from the store is the number of entries stored |
| `HistorySampling.IndicesAreThePicks` | backend/broker_snapshot_helpers.py:31-46 | the rounded picks never coincide, so the set of indices has exactly the cap's size |
| `HistorySampling.RoundsToNearest` | backend/broker_snapshot_helpers.py:45-46 | a pick is the nearest index, of two the even one |
| `HistorySampling.DownsampleShape` | backend/broker_snapshot_helpers.py:31-46 | a long history is cut to exactly the cap, its own first and last points among them |
| `HistorySampling.DownsampleKeepsOrder` | backend/broker_snapshot_helpers.py:31-46 | later picks come from later points |
| `CoreSleeve.TargetWeightBounds` | backend/core_sleeve.py:349-390 | the target stays in its band, a larger satellite never raises it and a confirmed bear never raises it |
| `CoreSleeve.FundingReserve.RebalanceOrder` | backend/core_sleeve.py:545-785 | the order and the ledger move exactly as the decision the theorems are about |
| `CoreSleeveTheorems.TargetExact` | backend/core_sleeve.py:375-380 | outside a confirmed bear core, satellite and cash floor make up the book, or the core stands at the nearer end of its band |
| `CoreSleeveTheorems.BearTargetExact` | backend/core_sleeve.py:381-390 | in a confirmed bear the target is that or the scaled base target if that is less, never under the band |
| `CoreSleeveTheorems.FundingExact` | backend/core_sleeve.py:599-624 | funding is released exactly when core and shortfall are both worth an order; cash and sale are then the request or all there is, and the credit grows by the sale, up to the book |
| `CoreSleeveTheorems.SellExact` | backend/core_sleeve.py:625-785 | above target a confirmed bear sells at once, otherwise band and cadence hold; what is sold is the most that core, target and step allow, or nothing if that is less than an order |
| `CoreSleeveTheorems.BuyExact` | backend/core_sleeve.py:658-781 | below target band, cadence, budget and circuit hold in this order; what is bought is the most that target, cash floor, cost and headroom allow, less an outstanding credit, or nothing if that is less than a clip |
| `CoreSleeveTheorems.OrderReports` | backend/core_sleeve.py:584-597 | an order carries the target and weight it was decided on, and acts only for four reasons |
| `CoreSleeveTheorems.WithheldIs` | backend/core_sleeve.py:728-749 | what a deploy reports as withheld is what the headroom made it leave |
| `CoreSleeveTheorems.OrderFeasible` | backend/core_sleeve.py:545-785 | no order sells more than the core holds, a buy with its cost haircut leaves the cash floor, no rebalance passes its target |
| `CoreSleeveTheorems.NoPingPong` | backend/core_sleeve.py:545-785 | at frozen prices a rebalance is never followed by an opposite one |
| `CoreSleeveTheorems.OrderSign` | backend/core_sleeve.py:545-785 | buys come only from below target and rebalancing sells only from above it |
| `CoreSleeveTheorems.HeadroomOnlyShrinks` | backend/core_sleeve.py:660-785 | with the reserve off, any headroom deploys on exactly the same inputs as headroom 0, never more |
| `CoreSleeveTheorems.OffIgnoresLedger` | backend/core_sleeve.py:502-542 | with the reserve off the ledger plays no part and is not touched |
| `CoreSleeveTheorems.OneBar` | backend/core_sleeve.py:502-542 | one bar spends one unit exactly when its order differs from the reserve-off order; a release restarts the budget; no credit without budget |
| `CoreSleeveTheorems.ReserveBudget` | backend/core_sleeve.py:486-542 | over any run, orders that differ plus what is left add up to the budget, and each release allows at most one budget more |
| `CoreSleeveTheorems.ReserveExpires` | backend/core_sleeve.py:486-542 | after a release at most the configured number of orders differ, and once they have the credit is zero and the two sleeves agree until the next release |
| `CoreSleeveTheorems.OneStepDown` | backend/core_sleeve.py:625-657 | in a confirmed bear one decision sells at most a step and never past target |
| `CoreSleeveTheorems.DeriskCompletes` | backend/core_sleeve.py:625-657 | after at most ceil(gap/step) decisions the core is within one order minimum of target |
| `SatelliteShare.LargestTargetMeans` | backend/core_sleeve.py:222-289 | the target used is the largest any enabled overlay of the pool names |
| `SatelliteShare.PoolExact` | backend/core_sleeve.py:248-251 | the overlays looked at are the enabled ones of the regime's name, or all enabled ones when none has it |
| `SatelliteShare.CoreTargetExact` | backend/core_sleeve.py:236-259 | the core target is the base configuration's, else the largest of those overlays, else 60% |
| `SatelliteShare.ShareExact` | backend/core_sleeve.py:259-319 | core, satellite and cash floor make up the book within 5% to 95%; the reserve comes off the design only, and the ceiling is where the core is at its minimum |
| `SatelliteShare.SharesOrdered` | backend/core_sleeve.py:222-318 | both shares stay between 5% and 95% and the ceiling is never below the design |
| `SatelliteShare.WarmUpIsCautious` | backend/core_sleeve.py:222-289 | before the regime is known the core target used is at least that of every regime that names its own, exactly when the base has a target, no enabled overlay is blank-named, none names a target, or the largest target named is at most what the blank-named ones give (the default when they name none) |
| `SatelliteShare.WarmUpIsConservative` | backend/core_sleeve.py:222-289 | and then the satellite gets no more than in any of those regimes |
| `SatelliteShare.StoredOrderIrrelevant` | backend/core_sleeve.py:152-164 | the order the overlays are stored in plays no part |
| `MarkStream.NoGhostSubscription` | backend/alpaca_mark_stream.py:189-300 | in every interleaving, once both threads are idle, the current stream carries only subscribed symbols, hence at most the maximum |
| `MarkStream.BookIsLastWanted` | backend/alpaca_mark_stream.py:189-204 | in every reachable state the book is the first of the symbols last asked for, as many as allowed, and the overflow the others |
| `MarkStream.CallsAreNotEmpty` | backend/alpaca_mark_stream.py:205-296 | the library is never called without a symbol |
| `MarkStream.RaiseAbandons` | backend/alpaca_mark_stream.py:205-317 | a call that raises adds and removes nothing and abandons those that were to follow it |
| `MarkStream.StopEnds` | backend/alpaca_mark_stream.py:254-318 | once stop has been called the loop makes at most seven more steps, whatever happens in between |
| `MarkStream.UnrevivedStreamIsExact` | backend/alpaca_mark_stream.py:189-300 | unless a `set_symbols` brings back a symbol the loop is about to unsubscribe, the wire carries exactly the subscribed symbols once both threads are idle, whatever else was added or removed meanwhile |
| `MarkStream.RevivedGhostCanBeLost` | backend/alpaca_mark_stream.py:286-296 | from every reachable state where one does, some continuation without a fault ends idle with the symbol subscribed and off the wire |
| `MarkStream.ReaddedSymbolCanBeLost` | backend/alpaca_mark_stream.py:286-296 | a run that ends with a symbol subscribed, on neither wire, and nothing left to do |
| `MarkStream.NoZombieStream` | backend/alpaca_mark_stream.py:254-284 | however stop interleaves with the stream factory, when it has finished no stream past the stop check is still open |
| `JsonTree.Normalize` | backend/frozen_paired_state.py:79-132 | the shared running budget accepts exactly the trees whose every node is in bounds and whose total size fits, and returns the normal form |
| `JsonTree.AcceptedExact` | backend/frozen_paired_state.py:79-132 | a tree is accepted exactly when the number of its nodes and the sum of their texts fit and every node under every path is good at its depth |
| `JsonTree.NormalExact` | backend/frozen_paired_state.py:87-101 | under every path a whole float becomes the integer and everything else stands |
| `JsonTree.Utf8Exact` | backend/frozen_paired_state.py:102-113 | the bytes of a character in UTF-8 |
| `JsonTree.NormalizeWhole` | backend/backtest_execution_snapshot.py:144-191 | a value normalised with a fresh budget |
| `JsonTree.NormalTwice` | backend/frozen_paired_state.py:79-132 | normalising a normal form changes nothing |
| `JsonTree.NormalIffAlias` | backend/backtest_execution_snapshot.py:160-169 | two trees get one normal form exactly when they differ only in whole numbers held as floats or integers |
| `JsonTree.NormalizedTwice` | backend/frozen_paired_state.py:79-132 | a normal form is accepted again, as itself |
| `JsonTree.NormalizedOfAlias` | backend/backtest_execution_snapshot.py:144-191 | the verdict and the result do not depend on how whole numbers are held, at any depth |
| `FrozenState.NoChangesIffEqual` | backend/frozen_paired_state.py:216-242 | the difference is empty exactly when the trees are equal |
| `FrozenState.OneChangeReplaces` | backend/frozen_paired_state.py:216-242 | a single difference between present values says how to get one tree from the other |
| `FrozenState.ReplacingIsOneChange` | backend/frozen_paired_state.py:216-242 | replacing one value by a scalar makes exactly that difference |
| `FrozenState.Diff` | backend/frozen_paired_state.py:216-242 | the walk with its early cut-off finds a first part of all differences, and all of them when it finds at most eight |
| `FrozenState.PairIffOneChange` | backend/frozen_paired_state.py:245-268 | the treatment is the control with 12 replaced by 20 at the one path exactly when that is the only difference |
| `FrozenState.CompareExecutionSnapshots` | backend/frozen_paired_state.py:245-268 | accepts exactly the pairs whose normal forms differ in that one way and are within the byte limit, despite the cut-off, and says which check refused the others |
| `StateRows.TableMeans` | backend/frozen_paired_state.py:184-208 | a table is accepted exactly when every row is good and no two share a primary key, and holds each row under its key |
| `StateRows.RowExact` | backend/frozen_paired_state.py:199-205 | the exact conditions on a row and its key |
| `StateRows.HashExact` | backend/frozen_paired_state.py:184-213 | there is a hash exactly when the number of rows, the key fields, the table and the byte limit are in order; it is the digest of the document of the ordered rows |
| `StateRows.RowOrderIrrelevant` | backend/frozen_paired_state.py:184-213 | any permutation of the rows gives the same hash, or the same refusal |
| `StateRows.SameHashSameRows` | backend/frozen_paired_state.py:184-213 | one hash means the same normalised rows under the same keys |
| `StateRows.SameHashSameKeys` | backend/frozen_paired_state.py:209-213 | and the same key fields |
| `StateRows.StateRowsSha256` | backend/frozen_paired_state.py:184-213 | the loop with its seen keys computes that hash, refusing keys and tables past the byte limit |
| `StateRows.BuiltVerifies` | backend/frozen_paired_state.py:421-428 | a built manifest verifies as itself, around the normal form of its core |
| `StateRows.VerifiedIffBuilt` | backend/frozen_paired_state.py:320-418 | a manifest verifies exactly when its own core would be built into it |
| `StateRows.VerifiedExact` | backend/frozen_paired_state.py:320-418 | a manifest verifies exactly when it is strict JSON whose rest passes the field checks and the byte limit and is what its bundle hash digests |
| `StateRows.BuiltExact` | backend/frozen_paired_state.py:421-428 | the exact conditions under which a manifest is built |
| `StateRows.SameBundleSameManifest` | backend/frozen_paired_state.py:411-418 | two verified manifests with one bundle hash differ only in how whole numbers are held |
| `ExecutionSnapshot.MadeVerifies` | backend/backtest_execution_snapshot.py:609-671 | every envelope made verifies to its own snapshot from any row that holds it, after any numeric aliasing of the row or of the backtest's number |
| `ExecutionSnapshot.VerifiesIffMade` | backend/backtest_execution_snapshot.py:625-671 | for every expected digest a row verifies exactly when making an envelope of its own core, for that backtest and key, gives its five fields and the digest expected, if any, is the row's own |
| `ExecutionSnapshot.BindingMismatch` | backend/backtest_execution_snapshot.py:666-667 | a row that is good by itself is refused for the engine's binding exactly when another digest is expected |
| `ExecutionSnapshot.NoContractMeans` | backend/backtest_execution_snapshot.py:635-648 | no contract is found exactly on an object row with none of the five fields when nothing asks for one; asked for, it is missing |
| `ExecutionSnapshot.VerifiedIsSound` | backend/backtest_execution_snapshot.py:517-553 | what verifies is the bounded, approved normal form of the row's body under the one schema version, digested |
| `ExecutionSnapshot.ProjectExact` | backend/backtest_execution_snapshot.py:517-545 | the exact conditions under which a public snapshot is accepted |
| `ExecutionSnapshot.MakeExact` | backend/backtest_execution_snapshot.py:609-622 | the exact conditions under which an envelope is made |
| `ExecutionSnapshot.EarlyChecks` | backend/backtest_execution_snapshot.py:633-653 | which of the first checks refuses a row |
| `ExecutionSnapshot.LateChecks` | backend/backtest_execution_snapshot.py:654-665 | and which of the later ones |
| `ExecutionSnapshot.IdMeans` | backend/backtest_execution_snapshot.py:567-580 | a backtest number is a whole one in range, held as an integer or a float |
| `ExecutionSnapshot.SignatureBinds` | backend/backtest_execution_snapshot.py:587-606 | rows that verify with one signature are for the same backtest and time, under keys that sign alike, and hold the same snapshot |
| `ExecutionSnapshot.BlocksAgree` | backend/backtest_execution_snapshot.py:601-606 | keys sign alike exactly when they are equal or are short and differ only in zeros at the end (section 2 of RFC 2104) |
| `ExecutionSnapshot.AlikeKeysVerifyAlike` | backend/backtest_execution_snapshot.py:625-671 | and they verify the same rows with the same verdict |
| `ExecutionSnapshot.RewrapProjects` | backend/backtest_execution_snapshot.py:517-553 | the core of a public snapshot builds that snapshot again |
| `PriceCursor.Merged` | backend/backtest_price_history.py:105-141 | the list the cache answers for is the current one exactly when it grew at its end or became shorter |
| `PriceCursor.AnswersAreCurrent` | backend/backtest_price_history.py:105-154 | every answer at every clock is that of the current list exactly when it became shorter or its part seen before holds the same well-formed bars |
| `PriceCursor.ReplacedListIsStale` | backend/backtest_price_history.py:105-141 | a second call with a bar replaced by a different one answers the first bar |
| `PriceCursor.VisibleIsFilter` | backend/backtest_price_history.py:143-154 | when availability never goes back, stopping at the first unavailable bar is the plain filter |
| `PriceCursor.VisibleExact` | backend/backtest_price_history.py:143-154 | of the bars kept all up to the first that becomes known after the clock are shown |
| `PriceCursor.CleanExact` | backend/backtest_price_history.py:110-141 | kept are the bars with a readable label and a known availability |
| `PriceCursor.Refresh` | backend/backtest_price_history.py:105-141 | the incrementally parsed view is the parsed form of the whole list, and extending it parses only the new bars |
| `PriceCursor.Advance` | backend/backtest_price_history.py:143-154 | moving the cursor from any passed position gives the from-scratch prefix |
| `PriceCursor.ReplayHistory` | backend/backtest_price_history.py:48-155 | over any run of calls each answer is a scan of the list gone on, and of the list shown where lists are extended or become shorter; with a forward clock and growing lists both loops together take at most two steps for each bar over the whole run |
| `PriceCursor.ReplayPrices` | backend/backtest_prices_cursor.py:42-123 | the same for runs of latest-price calls, each price the close of the last bar of its history |
| `PriceCursor.HistoryIsFullScan` | backend/backtest_price_history.py:80-155 | lists that grew, shrank or are empty are answered by a full scan of the current bars |
| `PriceCursor.PriceIsLastOfHistory` | backend/backtest_prices_cursor.py:42-123 | a symbol has a price exactly when its history has a last bar with a readable close, and that close is the price |
| `PriceCursor.CursorCache.GetPriceHistoryUpToCurrent` | backend/backtest_price_history.py:80-155 | for every state of the cache, every clock and every list the answer is a scan from scratch of the list the cache goes on, the current one under the condition of `PriceCursor.Merged`; a forward clock over growing lists keeps the work linear |
| `PriceCursor.CursorCache.LatestPriceAt` | backend/backtest_prices_cursor.py:57-123 | the same for latest prices |
| `PriceCursor.CursorCache.Tick` | backend/backtest_price_history.py:85-88 | a clock that goes back resets the cursors and keeps the cache sound |
| `BarEvents.BisectSplits` | backend/backtest_bar_events.py:231-232 | on sorted labels the bisection splits them at the value looked for |
| `BarEvents.NoBarLost` | backend/backtest_bar_events.py:200-263 | with labels in order, opens within a day of their label and availability never going back, the bisected start and the early stop drop nothing |
| `BarEvents.RowsAreSound` | backend/backtest_bar_events.py:50-61 | on any list every row returned is sound, opened in time and known by the clock |
| `BarEvents.RowExact` | backend/backtest_bar_events.py:234-262 | the exact conditions under which a bar gives a row |
| `BarEvents.FlawedExact` | backend/backtest_bar_events.py:248-259 | a bar is warned about exactly when it is timely and readable and yet gives no row |
| `BarEvents.LaterPollAppends` | backend/backtest_bar_events.py:200-263 | two polls from the same time differ exactly by the bars that became known between them |
| `BarEvents.SameLabelsAreCurrent` | backend/backtest_bar_events.py:182-263 | labels cached from another list with the same labels give the same poll as the list's own |
| `BarEvents.ParsedExact` | backend/backtest_bar_events.py:182-187 | labels come from the cached list exactly while identity and length are those of the list shown |
| `BarEvents.StaleLabelHidesBar` | backend/backtest_bar_events.py:182-197 | a sound bar whose label could not be read when its list was labelled is never returned |
| `BarEvents.LabelsExact` | backend/backtest_bar_events.py:182-263 | on lists in order of their labels, every poll of whatever bars carry the current labels is right exactly when the labels gone by are those |
| `BarEvents.AnswersAreCurrent` | backend/backtest_bar_events.py:182-263 | while no cached label is wrong all rows and warnings of a call are those of the current lists |
| `BarEvents.CallsExact` | backend/backtest_bar_events.py:182-263 | every call over those list objects is answered from the current lists, whatever their bars hold, exactly when no cached label has changed |
| `BarEvents.BarEventFeed.Labels` | backend/backtest_bar_events.py:182-197 | the labels and positions are those of the list, or of the cached one while identity and length are the same |
| `BarEvents.BarEventFeed.Poll` | backend/backtest_bar_events.py:230-260 | one symbol's rows at the places it was labelled at, and a warning for every flawed timely bar looked at, each given once |
| `BarEvents.BarEventFeed.CollectBarEvents` | backend/backtest_bar_events.py:200-263 | every required symbol with at least one row gets all its rows, going by the labels cached before the call, and current ones while those hold; the warnings given are exactly the flawed bars looked at, without repetition |
| `RangeSplitter.SanitizedIsGood` | backend/benzinga_client.py:380-438 | cleaning keeps exactly the distinct clean records, each once |
| `RangeSplitter.KeptExact` | backend/benzinga_client.py:392-438 | exactly which records are kept, for each kind of data and list of tickers |
| `RangeSplitter.SanitizedInOrder` | backend/benzinga_client.py:392-438 | records are kept in the order of their first occurrence |
| `RangeSplitter.NormExact` | backend/benzinga_client.py:389-410 | a ticker is normalised by taking off the blanks around it and turning small letters into capitals, nothing else |
| `RangeSplitter.SpaceExact` | backend/benzinga_client.py:389-410 | the ASCII characters taken for blanks |
| `RangeSplitter.CleanExact` | backend/benzinga_client.py:403-410 | a kept record holds its tickers normalised and the rest as it was |
| `RangeSplitter.SanitizedTwice` | backend/benzinga_client.py:380-438 | cleaning a clean list drops nothing |
| `RangeSplitter.Sanitize` | backend/benzinga_client.py:380-438 | the loop keeps those records and counts the rest |
| `RangeSplitter.ChunkIsItsPieces` | backend/benzinga_client.py:933-990 | the halving partitions a window into pieces that follow each other without gap or overlap, and its rows are theirs in order |
| `RangeSplitter.FetchesBounded` | backend/benzinga_client.py:933-990 | at most fifteen service fetches for a window, whatever is cached or answered |
| `RangeSplitter.RangeIsPartitioned` | backend/benzinga_client.py:1035-1066 | the same partition for the whole range, with at most fifteen fetches for each 31-day window |
| `RangeSplitter.WindowsAreShort` | backend/benzinga_client.py:1053-1066 | over a long range no window asked for is longer than 31 days |
| `RangeSplitter.CompleteIffPieces` | backend/benzinga_client.py:933-990 | a window's rows are complete exactly when every final piece is |
| `RangeSplitter.BulkCompleteIffPieces` | backend/benzinga_client.py:993-1080 | the bulk result never repeats a record or holds a foreign one, and has every record of the range exactly when every final piece is complete |
| `RangeSplitter.NoSilentLoss` | backend/benzinga_client.py:965-990 | if every cached window is complete or holds a window warned about earlier, a window's answer is complete unless one inside it is or was warned about, and the cache stays that way |
| `RangeSplitter.BulkNoSilentLoss` | backend/benzinga_client.py:993-1080 | the same for a whole bulk call, which never repeats a record |
| `RangeSplitter.LossIsAnnounced` | backend/benzinga_client.py:993-1080 | over any run of calls from an empty cache, with services that answer differently each time, an answer holds every record of its range once unless this or an earlier call warned about a window inside it |
| `RangeSplitter.LossIffWarned` | backend/benzinga_client.py:965-1080 | after any run of calls, where no window inside the range was warned about before, an answer of a service that cuts off has every record of the range exactly when the call warns about nothing |
| `RangeSplitter.NextBulkRepeats` | backend/benzinga_client.py:1026-1033 | the next call for the range returns the same rows from the cache, fetching and warning nothing |
| `RangeSplitter.BulkCaches` | backend/benzinga_client.py:1026-1076 | the cache then gives the answer for the range; a cached list with anything to drop is replaced by the cleaned one |
| `RangeSplitter.SecondCallIsSilent` | backend/benzinga_client.py:982-988 | a service whose second call lacks a record and warns about nothing |
| `RangeSplitter.RangeFetcher.FetchChunkWithSplit` | backend/benzinga_client.py:933-990 | the recursion with its cache writes is the one the theorems are about |
| `RangeSplitter.RangeFetcher.FetchBulk` | backend/benzinga_client.py:993-1080 | the window loop, the cache and the cleaning together |
| `EdgarFilings.UnitPoints` | backend/edgar_fundamentals.py:173-183 | the facts read are those of the first tag that has any, whatever their dates |
| `EdgarFilings.AnnualFlow` | backend/edgar_fundamentals.py:186-199 | the annual facts by vintage, the later of two for one vintage standing |
| `EdgarFilings.VintagesExact` | backend/edgar_fundamentals.py:186-215 | the value of a vintage is that of the last fact that counts for it: readable, and for a year at least 350 days long |
| `EdgarFilings.InstantFacts` | backend/edgar_fundamentals.py:202-215 | the balances by vintage |
| `EdgarFilings.KnownIsLatest` | backend/edgar_fundamentals.py:230-245 | the balance paired with an income filing is that of the latest vintage public by then, and there is one exactly when some vintage was |
| `EdgarFilings.PeriodsInOrder` | backend/edgar_fundamentals.py:218-256 | the periods are exactly the income vintages with a public balance, by day filed and then end, none twice |
| `EdgarFilings.PeriodsFromCompanyFacts` | backend/edgar_fundamentals.py:218-256 | the loops build those periods |
| `EdgarFilings.ReadingCommutes` | backend/edgar_fundamentals.py:173-183 | reading the payload of a day equals the day's part of reading the full payload exactly when no later filing under a preferred tag hides an earlier one |
| `EdgarFilings.TimeTravelPrefix` | backend/edgar_fundamentals.py:218-256 | then the periods of that day's payload are exactly the first, filed-by-then part of the full payload's periods |
| `EdgarFilings.TimeTravelExact` | backend/edgar_fundamentals.py:218-256 | the day's periods are exactly that part, exactly when there are none, or the balance reading commutes and so does every income reading some period has a value of |
| `EdgarFilings.LateTagRewritesThePast` | backend/edgar_fundamentals.py:173-183 | a payload under the tags read for which they are not: revenue under the third tag, then under the first |
| `EdgarFilings.VisibleAnnual` | backend/edgar_factors.py:129-143 | in whatever order vintages are met, each period gets its latest value filed by the day |
| `EdgarFilings.FactorSet` | backend/edgar_factors.py:154-232 | the factors come from the seven readings visible on the day |
| `EdgarFilings.FactorsExact` | backend/edgar_factors.py:154-232 | each factor is there exactly when its figures are, and times its denominator gives profit, cash flow less income, or what assets and shares fell by |
| `EdgarFilings.FactorsIgnoreTheFuture` | backend/edgar_factors.py:129-232 | payloads that agree on what was filed by a day give the same factors for that day |
| `EdgarFilings.HigherIsBetter` | backend/edgar_factors.py:187-224 | the factors are anchored on the latest annual end with a balance; growth is positive exactly when the balance sheet shrank, accruals exactly when cash is above income, net issuance exactly when the share count fell, profitability within its bounds |
| `LoginLimiter.Limiter.LoginIsRateLimited` | backend/auth_utils.py:295-306 | with a clock that never goes back the answer is that of the full history since the last clear: pruning changes nothing |
| `LoginLimiter.Limiter.RecordFailedLogin` | backend/auth_utils.py:309-323 | the failure is added to its bucket's history and the count is that of the full history; evicting aged-out buckets changes no answer |
| `LoginLimiter.Limiter.ClearLoginAttempts` | backend/auth_utils.py:326-329 | one bucket is forgotten |
| `LoginLimiter.RecentOfRecent` | backend/auth_utils.py:301-304 | cutting at an earlier time first changes nothing |
| `LoginLimiter.WindowBound` | backend/auth_utils.py:295-323 | with every attempt checked first and at most p in flight no window holds more than the limit plus p - 1 failures |
| `LoginLimiter.OneAtATime` | backend/auth_utils.py:295-323 | attempts one at a time never exceed the limit in any window |
| `LoginLimiter.BoundIsAttained` | backend/auth_utils.py:295-323 | for every limit, window and p at least one, a schedule attains that bound |
| `LoginLimiter.LimitHoldsIffOneInFlight` | backend/auth_utils.py:295-323 | no window ever exceeds the limit itself exactly when at most one attempt is in flight |
| `LoginLimiter.LoginRoute.NeverMore` | backend/api/main.py:1388-1410 | the bound holds of the failures recorded by any interleaving of login calls over the limiter |
| `LoginLimiter.UseUp` | backend/api/main.py:1388-1410 | calls of the route that reach the bound |
| `RiskMetrics.HigherPeakDeclinesMore` | backend/backtest_risk_metrics.py:58-71 | a value has fallen furthest from the highest earlier peak, which is why one running peak is enough |
| `RiskMetrics.ValuesExact` | backend/backtest_risk_metrics.py:25-37 | the values measured are the readable ones above zero, in order |
| `RiskMetrics.MaxDrawdown` | backend/backtest_risk_metrics.py:25-71 | the one pass returns the largest decline over all pairs of an earlier and a later value, attained at the reported places, the peak not after the trough; too short a curve is not measured |
| `RiskMetrics.Downsample` | backend/backtest_risk_metrics.py:90-105 | a long curve is cut to the cap, its last point kept, its first point kept for every cap above one, the others at their strides |
| `RiskMetrics.SamplesInOrder` | backend/backtest_risk_metrics.py:99-105 | the sampled places are in order and never repeat |
| `RiskMetrics.CleanMoveIffNoFlip` | backend/backtest_risk_metrics.py:164-177 | gross is at least the net change and equals it exactly when the side never flips |
| `RiskMetrics.SleeveChurn` | backend/backtest_risk_metrics.py:122-177 | the churn ratio times the size of the net change is the gross; it is at least one, is one exactly for a directional move, and is absent for a round trip |
| `RiskMetrics.BothSides` | backend/backtest_risk_metrics.py:164-165 | gross is what was bought and sold together, net the one less the other |
| `RiskMetrics.FlipsAreTurns` | backend/backtest_risk_metrics.py:166 | flips are the places where the side differs from the one before |
| `RiskMetrics.FillsAreSound` | backend/backtest_risk_metrics.py:143-158 | the fills are the readable trades above zero, in order |
| `BacktestSummary.ResolveEndPrices` | backend/backtest_summary.py:546-570 | a readable positive mark of the last snapshot wins, the resolver fills only what it lacks |
| `BacktestSummary.EndPriceExact` | backend/backtest_summary.py:559-570 | the end price is a readable positive mark, else the resolver's price |
| `BacktestSummary.ProfitExact` | backend/backtest_summary.py:585-595 | sells less buys and the position at its end price |
| `BacktestSummary.ComputePerStockPnl` | backend/backtest_summary.py:573-601 | each traded symbol's rounded profit and percentage |
| `BacktestSummary.PercentExact` | backend/backtest_summary.py:597-600 | the percentage is the profit for a hundred units bought, rounded; nothing bought has none |
| `BacktestSummary.Round4Exact` | backend/backtest_summary.py:596 | rounding gives the nearest fourth decimal, of two the even one |
| `BacktestSummary.RealizedIsCashFlow` | backend/backtest_summary.py:585-589 | over all traded symbols sells less buys add up to what the trades did to the cash |
| `BacktestSummary.GapIsTheMarks` | backend/backtest_summary.py:573-601 | on balanced books the per-stock sum differs from the headline by exactly the positions' worth at end prices rather than at the curve's marks |
| `BacktestSummary.PerStockReconciles` | backend/backtest_summary.py:546-601 | when every held symbol has a mark, the reported profits add up to the headline within half a unit of the fourth decimal for each symbol |
| `BacktestSummary.PickedFillsTheGaps` | backend/backtest_summary.py:668-696 | snapshot rows fill each uncovered date and symbol once, with the earliest price offered |
| `BacktestSummary.BarRowsExact` | backend/backtest_summary.py:649-665 | the bar rows are exactly the closes dated in the window |
| `BacktestSummary.OffersExact` | backend/backtest_summary.py:668-695 | the snapshot offers are exactly the readable positive prices dated in the window |
| `BacktestSummary.SeriesExact` | backend/backtest_summary.py:649-710 | the series is the bars with the picked offers, or every bar when there is neither |
| `BacktestSummary.BuildBacktestPriceSeries` | backend/backtest_summary.py:628-716 | the loops build the sorted form of the series the lemmas are about, with the unfiltered fallback when nothing is in the window |
| `BacktestSummary.SortedIsStable` | backend/backtest_summary.py:712-716 | the final series is in order of timestamp and symbol, holds the same rows, and keeps those of one timestamp and symbol in the order they were collected |
| `BacktestSummary.SnapshotRowsAreNew` | backend/backtest_summary.py:668-696 | no snapshot row stands where a bar does, no two stand for one date and symbol, and every date and symbol with a price is covered |

## Left out

- SQL text, connection pooling, JSON bytes, HTTP retries and budgets, the Alpaca library loop and
  the SEC and Benzinga endpoints: calls into code that is not part of this model. Tables are maps
  and each statement is atomic.
- The inside of SHA-256 and HMAC: digests and signatures are free constructors, so a text that
  only looks like a digest is never equal to one; of HMAC the padding of short keys is modelled.
- Floating-point rounding and NaN: numbers are real or whole; a value that is not finite is a case
  of its own where the source tests for it. The one rounding modelled is that of reported profits.
- Calendars, time zones and the parsing of timestamps and config values: instants and days are
  integers, and availability, opens and closes are given readings of a bar.
- The field-by-field schema, size and secret checks of snapshots and manifests: they are given
  predicates on the normal form. Which of several errors a bad JSON tree reports first is not
  modelled either, because objects are maps. Whether a serialised form is within the byte limit is
  a given predicate on the normal form.
- EvidenceLifecycle.EvidenceRunLifecycle.Abort: does not publish its outcome record to the store,
  because no store of the repository has a `publish_outcome` to call.
- EvidenceLifecycle.EvidenceRunLifecycle.Succeed: no other store object writes to the tables during
  the call, and at most one backend call of the run raises.
- The conflict records of a model-evidence ledger and its clean-start audit.
- Reconnect waits, authentication failures and `start()` after a stop in the mark stream.
- The literal-merge sentinel of the result store and the listing, deletion and age queries.
- Which bars the sleeve is armed for by regime, the turnover-budget accounting and the status
  fields of an order.
- Age of cached records in the bulk fetch, a missing cache connection, a service call that raises,
  and letters outside ASCII in tickers.
- ResultRuns.ExactlyOnce: one finalization of a kind is in progress at a time.
- LoginLimiter.Limiter.LoginIsRateLimited: says nothing about answers after the clock has gone
  back, because pruning then forgets failures the full history still counts.
- BarEvents.CallsExact: on lists whose labels are in order, which the bisection presupposes.
- RangeSplitter.LossIsAnnounced: is one direction for services in general, because an answer that
  holds exactly the cap is warned about and may be complete.
- RangeSplitter.RangeFetcher.FetchBulk: one data type and one list of tickers; the short hash of
  the tickers in a cache key is not modelled.
- The benchmark and execution-provenance part of the summary.
- Bucket keys of the limiter are taken as given; memory use of the limiter is not bounded here
  because the code does not bound it.
- `composite_score`, CIK resolution, throttling and the volatility figures: short formulas with no
  deeper property.
- `cli.py`, `discover.py`, logging, alerts, tokens, passwords and the frontend.

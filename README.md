# Project Foresight — a verified model of the fraud-monitoring core

Project Foresight is an operator console for fraud monitoring. It has three parts.

- The "Janus" engine in the Python backend pairs every transaction of a fixed test set with a
  simulated analysis: a QSVC screening probability, a VQE energy forecast with risk status and
  measurement probabilities, a topology classification from real degree counts, and a classical
  benchmark.
- A FastAPI server wraps the engine. It streams one analysed transaction after another over a
  websocket. It blocks accounts by transaction id and also serves the transaction list, the
  analytics figures and a compliance log.
- The React front end holds a deduplicated, bounded buffer of streamed events (`useRiskStream`). It
  drives a step-by-step investigation workspace that ends in a disposition (block or approve).
  Smaller computations sit behind individual screens:
  - the explorer search;
  - the local sub-graph extraction;
  - the instant-risk approve/decline panel with its OTP timers;
  - the re-timed fraud-ring table.

The model follows that structure with one Dafny module per source component.

| file | module | models |
|---|---|---|
| `wrappers.dfy` | `Wrappers` | `Option` |
| `text.dfy` | `Text` | decimal rendering and Python `int()`, `split("-")[1]`, Python slices, ASCII `toLowerCase`, `includes` |
| `seqs.dfy` | `Seqs` | `Array.filter` as `Filter` and its laws; `slice(0, k)` as `Take`; reversal |
| `engine.dfy` | `Engine` | `backend/app/core/janus_engine.py` |
| `backend.dfy` | `Backend` | `backend/main.py`, a `Server` class over the module-level globals |
| `risk_stream.dfy` | `RiskStream` | `foresight_ui/src/hooks/useRiskStream.ts`, a `RiskStream` class over the three state hooks |
| `investigation.dfy` | `Investigation` | `foresight_ui/src/pages/JuryInvestigation.tsx`, a `Workspace` class |
| `explorer.dfy` | `Explorer` | `foresight_ui/src/pages/TransactionExplorer.tsx` |
| `subgraph.dfy` | `Subgraph` | `frontend/src/components/pages/SubgraphExtraction.tsx` |
| `instant_risk.dfy` | `InstantRisk` | `frontend/src/components/pages/InstantRisk.tsx`, an `AlertView` class |
| `fraud_ring.dfy` | `FraudRing` | `frontend/src/components/pages/FraudRingDetection.tsx` |

How the source was turned into Dafny:

- **State.** Mutable state is a class whose methods have `modifies` clauses: the server's globals,
  the hook's state, and the workspace and panel state. Pure computations are functions with lemmas
  about them.
- **Randomness.** Every random draw of the engine is a field of a `Noise` parameter. This covers
  the QSVC variation, the VQE energy noise, the per-state shot noise, the XGBoost probability and
  the projected coefficients.
- **Inputs from outside.** Fetch results, the websocket's send/sleep outcomes, timer firings,
  the local clock (`new Date().toLocaleTimeString()`, the `now` of `RiskStream.Admit`) and the
  contents of `localStorage` or the blocked-accounts file are method parameters.
- **Amounts.** Amounts are exact `real`s.
- **Integer ids.** Python's `int()` is modelled for an optional sign followed by ASCII digits.
- **Disabled controls.** A click on a control that is disabled or not rendered is a no-op. Where a
  handler's own guard differs from the button's guard, the handler is modelled separately
  (`AlertView.HandleDecline` and `AlertView.ClickConfirmDecline`).

Where the code departs from the workflow it is designed around (cache before fetch, reviewed cases hidden
from the queue, stale responses dropped), the model follows the code:

- **No cache short-circuit.** `startInvestigation` always fetches
  (`foresight_ui/src/pages/JuryInvestigation.tsx:53-74`). It never consults the investigation
  cache.
- **The cache is never written.** `saveToCache` (lines 32-36) has no caller. The model keeps it as
  `Workspace.SaveToCache`, and no disposition writes the cache.
- **The picker shows everything.** The picker renders `transactions` (line 96), not
  `visibleTransactions` (line 42), so reviewed cases are not hidden. `VisibleTransactions` is
  modelled and proved, but the picker does not use it.
- **No stale-response guard.** A fetch outcome is applied whenever it arrives.
  `Workspace.StartInvestigation` takes it as a parameter.
- **"failed" is unreachable.** In the instant-risk panel, the input's `maxLength={4}` and the Verify
  button's `disabled` guard together make the `failed` OTP status unreachable.
  `AlertView.Valid` carries that as an invariant.

## Model

| member | source | states |
|---|---|---|
| Text.NatToString | backend/app/core/janus_engine.py:54 | the decimal rendering used in `TX-{…}` is non-empty, all digits, and has no leading zero |
| Text.NatToStringValue | backend/app/core/janus_engine.py:54 | reading the rendered digits back gives the number |
| Text.NatToStringInjective | backend/app/core/janus_engine.py:54 | distinct numbers render to distinct strings |
| Text.ParseInt | backend/app/core/janus_engine.py:325 | `int()` succeeds iff the field is `Text.IsIntLiteral` (digits, optionally after a single `+` or `-`), so `"4a"`, `"-"`, `"12-3"` and the empty string fail; a digit string yields its value, a `-` literal the negated value, a `+` literal the unsigned value |
| Text.ParseIntOfNatToString | backend/app/core/janus_engine.py:325 | `int(str(n)) == n` |
| Text.FirstIndexOf | backend/app/core/janus_engine.py:325 | finds the first occurrence of the separator, and fails exactly when it is absent |
| Text.SecondField | backend/app/core/janus_engine.py:325 | `split("-")[1]` fails exactly when there is no separator; otherwise it is the text after the first separator up to the next separator or the end, and holds no separator |
| Text.SecondFieldOfJoin | backend/app/core/janus_engine.py:325 | `("a-b").split("-")[1] == b` when neither part contains `-` |
| Text.PyPrefix | backend/app/core/janus_engine.py:56 | `s[:k]` has length `min(k, len(s))` and is a prefix of `s` |
| Text.PySuffix | backend/app/core/janus_engine.py:56 | `s[-k:]` has length `min(k, len(s))` and is a suffix of `s` |
| Text.ToLower | foresight_ui/src/pages/TransactionExplorer.tsx:27-31 | `toLowerCase` keeps the length and lower-cases each character |
| Text.ToLowerIdempotent | foresight_ui/src/pages/TransactionExplorer.tsx:27-31 | lower-casing twice equals lower-casing once |
| Text.ContainsAt | foresight_ui/src/pages/TransactionExplorer.tsx:28-30 | `includes` holds when the needle occurs at some offset |
| Text.ContainsWitness | foresight_ui/src/pages/TransactionExplorer.tsx:28-30 | conversely, `includes` yields the offset where the needle occurs |
| Seqs.FilterIsSubsequence | foresight_ui/src/pages/TransactionExplorer.tsx:27 | `filter` keeps a subsequence of its input, in order |
| Seqs.FilterMembership | foresight_ui/src/pages/TransactionExplorer.tsx:27 | an element survives `filter` iff it is in the input and satisfies the predicate |
| Seqs.FilterCommute | foresight_ui/src/pages/TransactionExplorer.tsx:62-66 | two filters applied in either order agree |
| Seqs.FilterPosition | frontend/src/components/pages/SubgraphExtraction.tsx:62-69 | a kept element sits in the filter's output at the count of kept elements before it |
| Seqs.FilterSource | frontend/src/components/pages/SubgraphExtraction.tsx:62-69 | every output element comes from an input position that has exactly that many kept elements before it |
| Seqs.FilterCountsIndices | foresight_ui/src/pages/TransactionExplorer.tsx:62-66 | the length of a filtered list is the number of input positions whose element passes the predicate |
| Seqs.ReverseAt | foresight_ui/src/hooks/useRiskStream.ts:33 | position `i` of the reversal holds element `n−1−i` |
| Seqs.ReverseInvolutive | frontend/src/components/pages/FraudRingDetection.tsx:45-47 | reversing twice gives the list back |
| Seqs.Take | foresight_ui/src/hooks/useRiskStream.ts:33 | `slice(0, k)` has length `min(k, len)` and agrees with the input position by position |
| Engine.RawTxIndex | backend/app/core/janus_engine.py:323-327 | `int(id.split("-")[1]) - 10000` succeeds iff the id has a second `-` field and that field is an integer literal, and then `int()` of the field is the result plus 10000 |
| Engine.NonIntegerFieldRejected | backend/app/core/janus_engine.py:323-327 | an id with no second field, or whose second field is not an integer literal, is rejected by both `Engine.RawTxIndex` and `Engine.ParseTxIndex` (the bare `except:` returns `None`) |
| Engine.ParseTxIndex | backend/app/core/janus_engine.py:318-330 | an id is accepted iff `int(id.split("-")[1]) - 10000` lies in `[0, n)`, and then yields that index |
| Engine.TxIdRoundTrip | backend/app/core/janus_engine.py:54 | the id `TX-{10000+i}` built by `Engine.TxId` for any in-range row parses back to `i` |
| Engine.TxIdInjective | backend/app/core/janus_engine.py:54 | distinct rows get distinct ids |
| Engine.Wrap | backend/app/core/janus_engine.py:46 | the wrapped row index is always below `n`; Engine.WrapIsMod gives its value |
| Engine.AbbreviateAccount | backend/app/core/janus_engine.py:56 | the account shown is the first four characters, `...`, and the last four |
| Engine.WrapIsMod | backend/app/core/janus_engine.py:46 | the wrapped row index (subtracting `n` until below `n`) is Python's `index % n` for every non-negative index |
| Engine.GetTransaction | backend/app/core/janus_engine.py:44-60 | row `index mod n` is read; its id is `TX-{10000+index mod n}` and parses back to that row; the account is that row's `nameOrig` abbreviated; fraud iff label 1; type `Transfer` iff fraud; amount copied |
| Engine.GetTransactionPeriodic | backend/app/core/janus_engine.py:46 | the feed repeats with period `n` |
| Engine.GetTransactionInRange | backend/app/core/janus_engine.py:46-58 | for `index < n` the id is `TX-{10000+index}` and the fraud flag is that row's label |
| Engine.NeighbourCountByPattern | backend/app/core/janus_engine.py:183-198 | for the first-match band of `Engine.Classify` (named by `Engine.PatternName`) and the count `Engine.NeighbourCount = min(max(out,in),8)`: Star-Hub iff 8 neighbours; Fan-Out has 4 to 7; Linear has 1; Small Network at most 3 |
| Engine.GetTransactionTopology | backend/app/core/janus_engine.py:164-222 | pattern from the first matching degree band, `min(max(out,in),8)` neighbour nodes (mules of risk 0.85 around a hub, peers of risk 0.15 otherwise, the first `out_degree` of them carrying the out-degree), degrees copied, connectivity score the mean degree |
| Engine.RiskOfEnergyBands | backend/app/core/janus_engine.py:100-113 | for `Engine.RiskOfEnergy`: CRITICAL iff energy < −1.5, WARNING iff −1.5 ≤ energy < 0, STABLE otherwise; score in [0,1], above 0.5 when critical |
| Engine.RunVqeForecast | backend/app/core/janus_engine.py:62-123 | the bias is active iff the classical potential exceeds 0.5; energy −2.5 or 2.0 plus noise; status and score from the energy bands |
| Engine.CalmNoiseSeparates | backend/app/core/janus_engine.py:71-113 | with noise inside (−1, 1) the forecast is CRITICAL iff the potential exceeds 0.5, and STABLE otherwise |
| Engine.ShotWeights | backend/app/core/janus_engine.py:151-157 | four weights, each at least 0.005 under in-range shot noise |
| Engine.SumOfFour | backend/app/core/janus_engine.py:151-157 | the running total of four weights is their sum |
| Engine.QuantumProbabilities | backend/app/core/janus_engine.py:125-162 | four outcomes labelled `00`, `01`, `10`, `11` in order |
| Engine.SimulateQuantumProbabilities | backend/app/core/janus_engine.py:151-162 | the accumulation loop returns the normalised shot weights |
| Engine.QuantumProbabilitiesSpec | backend/app/core/janus_engine.py:134-162 | every probability lies in (0, 1], they sum to 1, and `10` (biased) or `00` (unbiased) strictly dominates |
| Engine.QsvcProbability | backend/app/core/janus_engine.py:263-274 | fraud is clipped to [0.70, 0.98], normal to [0.02, 0.35]; probability > 0.5 iff fraud |
| Engine.HamiltonianTerms | backend/app/core/janus_engine.py:284-291 | terms ZI, IZ, ZZ; ZI carries a bias of 4·p exactly when p > 0.5 |
| Engine.ProcessTransactionWrapped | backend/app/core/janus_engine.py:252-316 | the pipeline with the topology row wrapped ensures `Engine.AnalysisOf`: the record and the full topology of row `idx mod n`, decision Suspicious iff fraud, energy well iff fraud, risk band of that energy, probabilities and Hamiltonian from the same draw, frustration energy equal to the energy, depth 15, blind spot iff fraud and XGBoost < 0.5 |
| Engine.ProcessTransactionFull | backend/app/core/janus_engine.py:252-316 | as written: fails (IndexError) exactly when `idx >= n`, otherwise the bundle has every property of the wrapped pipeline's bundle |
| Engine.GetForensicDetails | backend/app/core/janus_engine.py:318-332 | a result iff the id parses into range; it is the full pipeline bundle of exactly that row (record, topology, decision, forecast, distribution, Hamiltonian, blind spot), and the returned id parses back to the same index |
| Backend.StatusPriority | backend/main.py:136-144 | `Backend.TransactionStatus` gives BLOCKED when frozen, else Flagged when label 1, else Posted |
| Backend.Head | backend/main.py:129 | `head(limit)`, taken as Python's slice `rows[:limit]`, is a prefix of the rows of length `min(limit, n)`, or `max(n + limit, 0)` for a negative limit |
| Backend.HeadDropsLast | backend/main.py:129 | for `0 < k ≤ n`, `head(−k)` followed by the last `k` rows is the whole table |
| Backend.HeadExtremes | backend/main.py:129 | a limit of at least `n` keeps every row; a limit of 0 or of at most `−n` keeps none |
| Backend.PreventionRate | backend/main.py:195 | rate × fraud count = blocked count when there is fraud, else 1.0; never negative |
| Backend.PreventionRateAboveOne | backend/main.py:195 | the rate exceeds 1 iff more accounts are blocked than there are fraud rows |
| Backend.Server.constructor | backend/main.py:20-36 | blocked accounts come from the saved file if present; no blocked ids; simulation index 0 |
| Backend.Server.BlockTransaction | backend/main.py:97-118 | an id whose `iloc` row exists (`Backend.BlockRow`) adds that row's account and the id and saves the file; any other id changes nothing and reports an error |
| Backend.Server.GetTransactions | backend/main.py:124-154 | one record per row of `head(limit)`, in order, each `Backend.Enrich` of its row: id `TX-{10000+i}`, that row's source, destination and amount, fraud flag and the status priority |
| Backend.Server.GetComplianceLog | backend/main.py:211-234 | one entry (`Backend.EntryOf`) per blocked id whose index is in range, with that row's amount and destination, and no duplicates |
| Backend.LoggedAppend | backend/main.py:224 | after appending an entry, the logged ids are those logged before plus the entry's id |
| Backend.LogStateStep | backend/main.py:217-232 | visiting one more blocked id adds its entry when its index is in range and nothing otherwise, keeping the log free of duplicates |
| Backend.Server.GetAnalytics | backend/main.py:170-196 | row count, total volume over all rows, fraud count (the label sum), fraud volume over the rows labelled 1, blocked-account count and prevention rate |
| Backend.VolumeSplitsByLabel | backend/main.py:179-187 | the total volume is the fraud volume plus the volume of the rows labelled otherwise |
| Backend.FraudVolumeBounded | backend/main.py:179-187 | with no negative amount, the fraud volume lies between 0 and the total volume |
| Backend.VolumeNonNegative | backend/main.py:179-187 | with no negative amount, the total and the fraud volume are both non-negative |
| Backend.Server.InvestigateTransaction | backend/main.py:162-168 | forensic details iff the id parses into range, and then the full pipeline bundle of that row; else `Transaction not found` |
| Backend.Server.StreamStep | backend/main.py:38-95 | one loop turn: the payload is `Backend.PayloadOf` of a bundle satisfying `Engine.AnalysisOf` for row `index` (so the transaction, QSVC probability, energy, risk score, status, probabilities and benchmark are that row's), a delay (`Backend.PacingDelay`) of 4 s when critical and 2 s otherwise, the index advanced only when send and sleep succeed; the socket closes at `index >= n` |
| Backend.PayloadOf | backend/main.py:56-68 | the message carries the bundle's record, benchmark, QSVC probability, energy, status, distribution and risk score, the risk score also as the system entropy |
| Backend.BlockAcceptsNegativeOffset | backend/main.py:105-106 | `TX-{10000−k}` blocks row `n−k` through pandas' negative offset |
| Backend.ListedIdBlocksItsRow | backend/main.py:105-106 | the id of a listed row blocks exactly that row |
| RiskStream.MetricsOf | foresight_ui/src/hooks/useRiskStream.ts:36-40 | the entropy and stability come from the payload; one active cluster iff CRITICAL |
| RiskStream.FeedMetricsOfRow | foresight_ui/src/hooks/useRiskStream.ts:36-40 | for the message of row `idx`, the shown entropy is the risk score of that row's energy, in [0,1], and a cluster is active iff the energy is below −1.5, which under noise in (−1, 1) is iff the row is fraud |
| RiskStream.AdmitDuplicate | foresight_ui/src/hooks/useRiskStream.ts:31-32 | `RiskStream.AdmitTx` leaves the buffer unchanged for an event whose id is present |
| RiskStream.AdmitNew | foresight_ui/src/hooks/useRiskStream.ts:33 | under `RiskStream.AdmitTx` a new event goes first and the old entries shift right, capped at 50 |
| RiskStream.AdmitPreservesInvariant | foresight_ui/src/hooks/useRiskStream.ts:30-34 | the buffer stays at most 50 entries with distinct ids, and contains the admitted id |
| RiskStream.AdmitKeepsRecent | foresight_ui/src/hooks/useRiskStream.ts:30-34 | the buffer is always the 50 most recent distinct admissions, newest first |
| RiskStream.AdmitAllDistinct | foresight_ui/src/hooks/useRiskStream.ts:30-34 | admitting distinct events from empty gives the last 50 of them, newest first |
| RiskStream.ScenarioWindow | foresight_ui/src/hooks/useRiskStream.ts:30-34 | after TX-1…TX-n with n ≥ 50 the buffer is TX-n down to TX-(n−49) |
| RiskStream.Scenario55 | foresight_ui/src/hooks/useRiskStream.ts:30-34 | after TX-1…TX-55 the buffer is TX-55…TX-6, and a repeated TX-30 changes nothing |
| RiskStream.HistoryIsLastWindow | foresight_ui/src/hooks/useRiskStream.ts:42-48 | repeated `RiskStream.AppendHistory` (`slice(-60)` of the history plus the new point) keeps exactly the last 60 points of the whole history |
| RiskStream.RiskStream.constructor | foresight_ui/src/hooks/useRiskStream.ts:4-10 | empty buffer and history; metrics 0.2, STABLE, 0 |
| RiskStream.RiskStream.Admit | foresight_ui/src/hooks/useRiskStream.ts:23-48 | one message updates all three pieces of state (the list by `AdmitTx` of its `RiskStream.FullTx` entry, the metrics, the history) and keeps the buffer and history invariants |
| Investigation.DispositionExclusive | foresight_ui/src/pages/JuryInvestigation.tsx:439-475 | at the verdict step BLOCK is offered iff fraud and APPROVE iff not; Close replaces Next |
| Investigation.NavigationRoundTrip | foresight_ui/src/pages/JuryInvestigation.tsx:485-507 | Next from step s and Previous from s+1 are both offered below the last step; no Previous at 0, no Next at 4 |
| Investigation.VisibleTransactionsSpec | foresight_ui/src/pages/JuryInvestigation.tsx:42 | the pending queue `Investigation.VisibleTransactions` is an ordered subsequence holding exactly the uncached transactions |
| Investigation.VisibleWithEmptyCache | foresight_ui/src/pages/JuryInvestigation.tsx:42 | with an empty cache nothing is hidden |
| Investigation.Workspace.constructor | foresight_ui/src/pages/JuryInvestigation.tsx:21-31 | picker mode, step 0, and the cache loaded from storage when present |
| Investigation.Workspace.StartInvestigation | foresight_ui/src/pages/JuryInvestigation.tsx:53-74 | a found case enters the lab at step 0; an error payload or a failed fetch alerts and changes nothing else |
| Investigation.Workspace.ClickPrevious | foresight_ui/src/pages/JuryInvestigation.tsx:485-491 | steps back only when offered |
| Investigation.Workspace.ClickNext | foresight_ui/src/pages/JuryInvestigation.tsx:493-499 | steps forward only when offered |
| Investigation.Workspace.StepToVerdict | foresight_ui/src/pages/JuryInvestigation.tsx:493-499 | repeated Next reaches the verdict step |
| Investigation.Workspace.ClickLeave | foresight_ui/src/pages/JuryInvestigation.tsx:137 | Back to list and Close Case return to the picker when offered |
| Investigation.Workspace.ClickBlock | foresight_ui/src/pages/JuryInvestigation.tsx:441-446 | when offered, posts a block for the case id, alerts the frozen account and returns to the picker |
| Investigation.Workspace.ClickApprove | foresight_ui/src/pages/JuryInvestigation.tsx:464-467 | when offered, returns to the picker without any post |
| Investigation.Workspace.SaveToCache | foresight_ui/src/pages/JuryInvestigation.tsx:32-36 | the cache gains exactly that entry and is persisted |
| Investigation.DecideLoadedCase | foresight_ui/src/pages/JuryInvestigation.tsx:53-475 | with row `i`'s analysis in the Lab, stepping to the verdict and pressing the offered button ends in the picker at the last step; a fraud row has its account and `TxId(i)` blocked on the server, any other row leaves both block sets unchanged |
| Investigation.InvestigateAndDecide | foresight_ui/src/pages/JuryInvestigation.tsx:53-475 | opening an id and stepping to the verdict ends at the verdict step back in the picker, blocking that row's account and id on the server when the row is fraud and changing no block set otherwise; an id outside the data leaves the workspace view and the block sets unchanged |
| Explorer.FilteredDataSpec | foresight_ui/src/pages/TransactionExplorer.tsx:27-31 | the search `Explorer.FilteredData` (per record `Explorer.Matches`) keeps, in order, exactly the records whose id, source or destination contains the query |
| Explorer.MatchesAt | foresight_ui/src/pages/TransactionExplorer.tsx:27-31 | an occurrence of the lower-cased query in a searched field makes the record match |
| Explorer.MatchesWitness | foresight_ui/src/pages/TransactionExplorer.tsx:27-31 | a matching record names the field and the offset of the occurrence |
| Explorer.EmptyQueryKeepsAll | foresight_ui/src/pages/TransactionExplorer.tsx:27-31 | the empty query keeps every record |
| Explorer.CaseInsensitive | foresight_ui/src/pages/TransactionExplorer.tsx:27-31 | queries equal up to case select the same records |
| Explorer.LowerCasedQuery | foresight_ui/src/pages/TransactionExplorer.tsx:27-31 | lower-casing the query first changes nothing |
| Explorer.FlaggedCount | foresight_ui/src/pages/TransactionExplorer.tsx:62 | the flagged count is the number of positions holding a fraud-labelled record, so at most the number of records |
| Explorer.BlockedCount | foresight_ui/src/pages/TransactionExplorer.tsx:66 | the blocked count is the number of positions holding a BLOCKED record, so at most the number of records |
| Explorer.VolumeSplitsBySearch | foresight_ui/src/pages/TransactionExplorer.tsx:27-54 | `Explorer.TotalVolume` of the listing is the volume of the matches plus the volume of the rest |
| Explorer.VolumeConcat | foresight_ui/src/pages/TransactionExplorer.tsx:54 | volume adds over concatenation |
| Explorer.CountsBoundSearch | foresight_ui/src/pages/TransactionExplorer.tsx:27-66 | searching never increases the flagged or blocked count |
| Subgraph.LocalNodes | frontend/src/components/pages/SubgraphExtraction.tsx:62-69 | at most 12 nodes, each an endpoint or adjacent through an edge touching the sender |
| Subgraph.LocalNodesSubsequence | frontend/src/components/pages/SubgraphExtraction.tsx:62-69 | the local nodes keep the graph's order |
| Subgraph.LocalNodesIncludes | frontend/src/components/pages/SubgraphExtraction.tsx:62-69 | a qualifying node with fewer than 12 qualifying predecessors is kept, at that position |
| Subgraph.LocalNodesSource | frontend/src/components/pages/SubgraphExtraction.tsx:62-69 | every kept node satisfies `Subgraph.Qualifies` and is among the first 12 that qualify |
| Subgraph.LocalNodesCount | frontend/src/components/pages/SubgraphExtraction.tsx:62-69 | exactly `min(12, #qualifying)` nodes are kept |
| Subgraph.LocalEdgesInduced | frontend/src/components/pages/SubgraphExtraction.tsx:71-73 | `Subgraph.LocalEdges` keeps an edge iff both endpoints are local nodes, in the graph's order |
| InstantRisk.ConfirmedReasonShown | frontend/src/components/pages/InstantRisk.tsx:108-111 | once confirm is enabled (`InstantRisk.ConfirmDeclineEnabled`), the reason displayed (`InstantRisk.DisplayedReason`) is the chosen code, or the free text for Other, and is never empty |
| InstantRisk.VerifyOutcome | frontend/src/components/pages/InstantRisk.tsx:71-77 | the timer verifies iff the code has four characters, and fails otherwise |
| InstantRisk.ExpectedTimers | frontend/src/components/pages/InstantRisk.tsx:62-78 | at most one callback is pending, exactly while sending or verifying |
| InstantRisk.AlertView.constructor | frontend/src/components/pages/InstantRisk.tsx:38-50 | pending, idle OTP, empty reasons and code, dialog closed |
| InstantRisk.AlertView.HandleApprove | frontend/src/components/pages/InstantRisk.tsx:52-54 | the status becomes approved |
| InstantRisk.AlertView.HandleDecline | frontend/src/components/pages/InstantRisk.tsx:56-60 | without a reason nothing changes; otherwise declined and the dialog closed |
| InstantRisk.AlertView.SendOtp | frontend/src/components/pages/InstantRisk.tsx:62-67 | sending, with a send callback queued |
| InstantRisk.AlertView.VerifyOtp | frontend/src/components/pages/InstantRisk.tsx:69-78 | verifying, with a callback queued that captures the current code |
| InstantRisk.AlertView.FireTimer | frontend/src/components/pages/InstantRisk.tsx:64-77 | the oldest callback runs: sent, or the verify outcome of its captured code |
| InstantRisk.AlertView.ClickSendOtp | frontend/src/components/pages/InstantRisk.tsx:210-214 | offered only while idle |
| InstantRisk.AlertView.EditCode | frontend/src/components/pages/InstantRisk.tsx:224-232 | the input keeps the first four typed characters, and is frozen while verifying or hidden |
| InstantRisk.AlertView.ClickVerify | frontend/src/components/pages/InstantRisk.tsx:233 | enabled (`InstantRisk.VerifyEnabled`) only for a four-character code outside verifying |
| InstantRisk.AlertView.Tick | frontend/src/components/pages/InstantRisk.tsx:64-77 | under the UI guards a send completes to sent and a verify always to verified |
| InstantRisk.AlertView.ClickApprove | frontend/src/components/pages/InstantRisk.tsx:311-338 | approves only when `InstantRisk.ApproveEnabled`: while pending and after verification |
| InstantRisk.AlertView.ClickDecline | frontend/src/components/pages/InstantRisk.tsx:340-345 | opens the decline dialog while pending |
| InstantRisk.AlertView.CloseDialog | frontend/src/components/pages/InstantRisk.tsx:382 | closes the dialog while pending |
| InstantRisk.AlertView.SelectReason | frontend/src/components/pages/InstantRisk.tsx:357-367 | picks one of the five reason codes while the dialog is open |
| InstantRisk.AlertView.EditOtherReason | frontend/src/components/pages/InstantRisk.tsx:370-378 | edits the free text only when Other is chosen |
| InstantRisk.AlertView.ClickConfirmDecline | frontend/src/components/pages/InstantRisk.tsx:384-389 | declines, and closes the dialog, exactly when the alert is pending, the dialog open and `InstantRisk.ConfirmDeclineEnabled` holds (a reason, plus free text for Other); otherwise status and dialog are unchanged; a declined panel always shows a non-empty reason |
| InstantRisk.DecisionIsFinal | frontend/src/components/pages/InstantRisk.tsx:311 | once approved or declined, no control changes the status |
| InstantRisk.ApproveWithCode | frontend/src/components/pages/InstantRisk.tsx:210-338 | send, wait, type, verify, wait and approve ends approved with the first four typed characters |
| FraudRing.Retime | frontend/src/components/pages/FraudRingDetection.tsx:46 | only the time changes, to the listed time of the edge when there is one |
| FraudRing.Retimed | frontend/src/components/pages/FraudRingDetection.tsx:45-46 | the copy has the ring's length and holds each transaction re-timed at its own position |
| FraudRing.IndexOf | frontend/src/components/pages/FraudRingDetection.tsx:47 | `indexOf` is −1 iff absent, otherwise the first occurrence |
| FraudRing.SortBy | frontend/src/components/pages/FraudRingDetection.tsx:47 | the sort keeps the length and the multiset of elements |
| FraudRing.SortSorted | frontend/src/components/pages/FraudRingDetection.tsx:47 | the output is ordered by rank |
| FraudRing.SortStable | frontend/src/components/pages/FraudRingDetection.tsx:47 | elements of equal rank keep their input order (stable sort) |
| FraudRing.AdjustedFraudRingSpec | frontend/src/components/pages/FraudRingDetection.tsx:45-47 | `FraudRing.AdjustedFraudRing` is a permutation of the re-timed ring, ordered by `desiredOrder` position and stable within a rank |
| FraudRing.UnlistedFirst | frontend/src/components/pages/FraudRingDetection.tsx:44-47 | edges missing from `desiredOrder` (index −1) come before listed ones |
| FraudRing.DemoRing | frontend/src/components/pages/FraudRingDetection.tsx:37-47 | a ring already in the desired order keeps its order and only takes the desired times |
| FraudRing.InsertLast | frontend/src/components/pages/FraudRingDetection.tsx:47 | an element ranked above every other goes to the end |
| FraudRing.SortDescending | frontend/src/components/pages/FraudRingDetection.tsx:47 | a list in strictly decreasing rank comes out reversed |
| FraudRing.SortReversed | frontend/src/components/pages/FraudRingDetection.tsx:47 | the reversal of a list in strictly increasing rank sorts back to that list |
| FraudRing.RetimedReverse | frontend/src/components/pages/FraudRingDetection.tsx:46 | re-timing commutes with reversal |
| FraudRing.DemoRetimed | frontend/src/components/pages/FraudRingDetection.tsx:37-46 | the demonstration ring takes the desired times, and its edges are in strictly increasing `desiredOrder` position |
| FraudRing.DemoRingReversed | frontend/src/components/pages/FraudRingDetection.tsx:37-47 | the same ring given back to front comes out in the desired order with the desired times |

## Left out

- Network transport is not modelled: the websocket connection, its `onclose` reconnect timer and
  cleanup, FastAPI routing, and the `fetch` calls. Their outcomes are parameters.
- Several messages arriving at once on a websocket, concurrent clients sharing `CURRENT_SIMULATION_INDEX`, and interleaved
  fetch responses are left out, because the model applies one event at a time.
- JSON (de)serialisation, `localStorage` and the blocked-accounts file are left out. A saved value
  is an `Option`, and a read or write error is not modelled.
- Console logging and `alert` are left out, except for the alerted text, which is returned.
- The `try/except` catch-alls around `get_transactions` and `get_analytics` are left out. Their
  zero-state results cover errors that cannot arise in the model, which has a loaded dataset.
- Random draws (`Noise`) from `np.random.normal`, `np.random.uniform` and the benchmark are
  parameters. Only the shot-noise range `[-0.005, 0.005]` is assumed, because the probability
  properties need it. `get_classical_benchmark` is not modelled, and its probability is a
  parameter.
- Engine.GetTransactionTopology covers the neighbour count and degrees. It does not model the
  hash-derived neighbour ids, the `idx % 50` debug print or the classification text beyond the
  pattern name, because Python's string hash is randomised per process.
- Engine.QuantumProbabilities: `round(…, 4)` is left out. Sums are exact, so the proved sum is
  exactly 1; rounded values sum to 1 only up to 4·0.00005.
- Engine.AnalysisOf: `round(xgboost_prob, 4)` (backend/app/core/janus_engine.py:312) is left out.
  The benchmark carries the unrounded draw. The blind-spot test (janus_engine.py:314) uses the
  unrounded value in the source, as it does in the model.
- Engine.GetTransaction and Engine.RowRecord keep `amount` as a number. The record's
  `f"${amount:,.2f}"` string is left out, because the model has no float formatting.
- Backend.Server.GetComplianceLog keeps the amount in the details as a number, for the same
  reason.
- Backend.Server.GetTransactions takes `limit` as an argument. FastAPI's default of 100 for a
  missing query parameter is left out with the rest of the routing.
- Floating point is modelled as exact reals throughout, so overflow and rounding are not captured.
- The numpy and Qiskit objects (`projection_matrix`, `SparsePauliOp`, the perturbation vector, its
  norm `vector_magnitude`) are left out. The projected coefficients are a parameter, and the
  vector is not part of the payload.
- Backend.Server.GetAnalytics: `pd.to_numeric(..., errors='coerce')` in the analytics volume is modelled as
  reading the amount directly, because amounts are numbers in the model.
- Text.ParseInt does not accept surrounding whitespace, `_` separators or non-ASCII digits.
  Python's `int()` accepts all three.
- Text.ToLower lower-cases ASCII letters only. JavaScript's `toLowerCase` also maps non-ASCII
  letters.
- Investigation.Workspace.StartInvestigation alerts on every error body. The page tests
  `if (d.error)`, so a body `{"error": ""}` would count as a success and open the lab. The server
  only ever sends `"Transaction not found"`, so that case cannot arise.
- Presentation is left out: JSX rendering, animations, charts and the 3-D views.
- The Deep Dive / `onNext` navigation between pages is left out.
- The "SEND OTP CHALLENGE" button in the disposition panel is left out, because it has no handler.
- The URL `?id=` auto-start effect of the workspace is left out. It only calls
  `startInvestigation`, which is modelled.
- Everything outside the core is left out: `services/model_service.py`, the debug and
  verification scripts, `schemas.py`, and the other pages and mock data.

## Findings

| source | as written | input that shows it | evidently intended | confidence | as-written member | corrected member |
|---|---|---|---|---|---|---|
| backend/app/core/janus_engine.py:295 | `process_transaction_full(idx)` reads the transaction at `idx % n` (line 46) but builds the topology from `details.iloc[idx]` (line 168) with the unwrapped index | the websocket loop after `n` messages, where `CURRENT_SIMULATION_INDEX == n`: `iloc[n]` raises IndexError, the loop's `except` ends the stream, and every later connection fails at once because the global index never resets | the topology is taken from the same wrapped row as the transaction, so the feed cycles forever as `get_transaction` intends | high (not executed) | Engine.ProcessTransactionFull, Backend.Server.StreamStep | Engine.ProcessTransactionWrapped |

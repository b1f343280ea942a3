# Token-sniping decision engine: a Dafny model

This project models the decision engine of a Solana token-sniping bot,
as written in TypeScript, and proves properties of the model. The engine
has three parts.

- **The risk gate** (`SecurityAnalyzer`, module `Security`, `security.dfy`).
  It runs the creator, contract, liquidity/holder and scam-pattern checks in
  a fixed order. Each check appends issues to one list. From the list it
  computes a 0–100 score (100 minus 50/25/10/5 per CRITICAL/HIGH/MEDIUM/LOW
  issue, floored at 0), a risk level, and a verdict: secure iff the score is
  at least 70 and no issue is CRITICAL.
- **The scheduler** (`TokenSniper`, module `Sniper`, `sniper.dfy`). It allows
  at most `maxConcurrentSnipes` snipes in flight, coalesces a second request
  for a mint already in flight, queues tokens that arrive at capacity, and
  drains the queue one token at a time. On the execute path, the security
  verdict is checked first, then the balance, then the buy. A rejected token
  is never bought.
- **The monitor** (`TokenMonitor`, module `Monitor`, `monitor.dfy`). It
  drops a sighting of a mint seen within the dedup window. It counts
  attempts, successes and failures, keeps the 50 newest results, keeps a
  ledger of positions, and sweeps that ledger. A sweep revalues each open
  position and closes it on take-profit or stop-loss.

Shared shapes (`TokenInfo`, `SecurityIssue`, `SnipeResult`, `Position`, the
severity union) are in module `Types` (`types.dfy`).

How the model is built:

- Each check method of the risk gate takes the issue list built so far and
  returns it extended. Each is proved equal to a pure function giving that
  check's issues.
- `calculateSecurityScore` keeps its loop. So does the sweep.
- The scheduler and the monitor are classes whose methods update their
  fields. Their `Valid()` invariant is preserved by every method:
  - the in-flight count stays within the limit;
  - every counter relation holds;
  - every ledger key has exactly one entry in the iteration order.
- Asynchronous steps become separate events:
  - `Submit`: snipeToken up to its first await.
  - `Complete`: a snipe settles.
  - `ProcessQueue`: the queue is drained, including on the 100 ms retry.
  - `Expire`: the dedup timer fires.
  - `Sweep`: the 30 s interval fires.
- These are inputs: the chain lookups, the wallet balance, the buy
  transaction, a position's current value, and the clock (`now`).

Where the code and its description differ, the model follows the code:

- `stopMonitoring` only clears the flag. Subscriptions and the position
  interval stay installed, so intake and sweeps continue after a stop.
- The snipe queue does not dedupe. A token queued twice is drained twice.
  The second copy is drained only after the first drain has settled, so it
  starts a second snipe, with its own buy attempt. It coalesces only onto a direct
  submission of the same mint that is still in flight.
- A caller whose token is queued gets an immediate failed result. It never
  receives the later outcome.
- The holder parser reads every balance as 0 (`ParsedHolderBalance`). So
  the whale check fires only when `maxTopHolderPercent` is negative.
- `updatePositionValue` revalues at a hard-coded +10 %. The model takes the
  current value as an input instead.

## Model

| member | source | states |
|---|---|---|
| Security.TotalPenalty | src/services/security.ts:283-303 | every issue deducts at least 5 points |
| Security.SecurityScore | src/services/security.ts:283-303 | the score lies in 0..100, and any issue brings it to at most 95 |
| Security.CalculateSecurityScore | src/services/security.ts:283-303 | the deduction loop computes exactly `SecurityScore`: 100 minus the deductions, floored at 0 |
| Security.ToLower | src/services/security.ts:258 | lower-casing keeps the length of the name |
| Security.Assess | src/services/security.ts:18-79 | score in 0..100; secure iff LOW; secure iff score ≥ 70 and no CRITICAL issue; a CRITICAL issue forces insecure, CRITICAL and score ≤ 50; a throw gives the fixed failure analysis; otherwise the issues are those of the four checks in order |
| Security.CheckCreatorReputation | src/services/security.ts:82-104 | appends exactly the creator issues: CRITICAL if blacklisted (whitelist skipped), else HIGH if a non-empty whitelist misses the creator |
| Security.AnalyzeTokenContract | src/services/security.ts:107-155 | appends exactly the contract issues: MEDIUM on a failed lookup, CRITICAL with nothing else when mint info is absent, one HIGH per mint or freeze authority |
| Security.AnalyzeHolderDistribution | src/services/security.ts:186-235 | appends exactly the holder issues: MEDIUM below the minimum holder count, HIGH when the top holder's share exceeds the limit, nothing when the lookup throws |
| Security.CheckLiquidityLock | src/services/security.ts:238-247 | appends exactly one MEDIUM liquidity-lock issue |
| Security.AnalyzeLiquidityAndHolders | src/services/security.ts:158-183 | appends HIGH for a truthy liquidity below the minimum, then the holder issues, then the lock issue when a lock is required |
| Security.CheckScamPatterns | src/services/security.ts:250-280 | appends MEDIUM when the lower-cased name (else the symbol) contains a listed word, and LOW when the token is younger than 300000 ms |
| Security.AnalyzeToken | src/services/security.ts:18-79 | running the checks in order and scoring gives exactly `Assess` |
| Security.PenaltyAppend | src/services/security.ts:286-301 | the deductions of two issue lists add up |
| Security.ScoreNeverIncreases | src/services/security.ts:283-303 | more issues never raise the score, and strictly lower a positive score |
| Security.PenaltyByCounts | src/services/security.ts:286-301 | the deductions are 50·#CRITICAL + 25·#HIGH + 10·#MEDIUM + 5·#LOW |
| Security.ScoreByCounts | src/services/security.ts:283-303 | the score is max(0, 100 − that weighted count) |
| Security.CriticalCostsFifty | src/services/security.ts:290-292 | any CRITICAL issue alone brings the score to at most 50 |
| Security.DetermineRiskLevel | src/services/security.ts:306-316 | each level is exactly one score band, CRITICAL below 30, HIGH in 30..49, MEDIUM in 50..69, LOW from 70, except that a CRITICAL issue makes the level CRITICAL whatever the score |
| Security.IsSecure | src/services/security.ts:45-48 | the verdict is secure exactly when the risk level is LOW |
| Security.CriticalForcesInsecure | src/services/security.ts:306-308 | a CRITICAL issue means CRITICAL and insecure, whatever the score |
| Security.RiskLevelMonotone | src/services/security.ts:306-316 | a lower score never gives a better risk level |
| Security.NoIssuesScenario | src/services/security.ts:283-316 | no issues: score 100, LOW, secure |
| Security.SingleCriticalScenario | src/services/security.ts:283-316 | one CRITICAL issue: score 50, CRITICAL, insecure |
| Security.CleanTokenScenario | src/services/security.ts:18-79 | an old, unnamed token with an unlisted creator, whose liquidity is not low with no lock required, whose mint has neither authority, and whose holder lookup either reports at least the minimum holder count under a non-negative concentration limit or throws (the throw is swallowed), is scored 100, LOW and secure |
| Security.BlacklistWins | src/services/security.ts:84-92 | a blacklisted creator gives exactly one CRITICAL issue, whatever the whitelist |
| Security.WhitelistMiss | src/services/security.ts:95-103 | for a creator who is not blacklisted: one HIGH issue iff a non-empty whitelist misses them, and none otherwise |
| Security.ContractCheckCases | src/services/security.ts:109-154 | the contract check's issues in each lookup case, counted and graded |
| Security.PenaltyPerCheck | src/services/security.ts:27-41 | the deductions of a full analysis are the sum of each check's deductions |
| Security.ContractLookupFailureIsolated | src/services/security.ts:144-154 | a failed contract lookup replaces that check's issues with one MEDIUM issue, keeps every other check's issues, and costs exactly 10 points more than clean mint info |
| Security.AnalysisFailureScenario | src/services/security.ts:62-78 | a throw of the analysis gives score 0, one CRITICAL issue, CRITICAL and insecure |
| Security.HolderCheckCases | src/services/security.ts:186-235 | a throwing lookup adds nothing; the MEDIUM low-holder issue iff the holder count is below the minimum; the HIGH whale issue iff there are holders, the supply is positive and the limit is negative, since every parsed balance is 0; at most two issues |
| Security.LiquidityCheckCases | src/services/security.ts:158-183 | the HIGH issue iff a truthy liquidity is below the minimum; the MEDIUM lock issue iff a lock is required; every holder issue is kept; nothing else is added |
| Security.ToLowerSlice | src/services/security.ts:258 | lower-casing commutes with taking a slice of the name |
| Security.SuspiciousNameFlagged | src/services/security.ts:252-269 | a non-empty name that spells a listed word anywhere, in any letter case, gets the MEDIUM issue as the first issue of the check |
| Security.FlaggedNameSpells | src/services/security.ts:252-269 | no false positive: the MEDIUM issue is raised only when there is a name or symbol and the tested text spells a listed word at some position, in some letter case |
| Security.UnflaggedNameClean | src/services/security.ts:252-269 | when the MEDIUM issue is absent, the name tested (else the symbol) spells no listed word at any position, in any case |
| Security.SymbolOnlyWithoutName | src/services/security.ts:258 | the symbol is ignored when the name is non-empty |
| Security.ScamPatternCases | src/services/security.ts:250-280 | the LOW issue iff the token is younger than 300000 ms; at most two issues; without a name or symbol, only the LOW issue can occur |
| Security.SuspiciousNameScenario | src/services/security.ts:252-269 | the mixed-case name "SafeMoon" is flagged as suspicious |
| Sniper.QueuedResult | src/services/sniper.ts:53-60 | a queued token gets a failed result, with 0 SOL and the queued message |
| Sniper.ExecuteSnipe | src/services/sniper.ts:76-158 | success iff secure, the balance was read and covers the buy amount, and the buy confirmed; success spends exactly the buy amount and carries the signature; failure spends 0 and carries an error; the security and balance errors have their messages |
| Sniper.InsecureStopsBeforeBalance | src/services/sniper.ts:88-102 | an insecure verdict decides the result, whatever the balance and buy outcome |
| Sniper.LowBalanceStopsBeforeBuy | src/services/sniper.ts:105-119 | an insufficient balance decides the result, whatever the buy outcome |
| Sniper.CriticalTokenNeverBought | src/services/sniper.ts:86-102 | a token with a CRITICAL issue, or whose analysis threw, is never bought and spends 0 SOL |
| Sniper.TokenSniper.constructor | src/services/sniper.ts:23-26 | the scheduler starts with nothing in flight, an empty queue and the flag clear |
| Sniper.TokenSniper.Submit | src/services/sniper.ts:31-65 | a mint in flight gets its handle and nothing changes; at capacity the token is appended to the queue and a queued result returned; otherwise the mint enters the in-flight set |
| Sniper.TokenSniper.ProcessQueue | src/services/sniper.ts:257-281 | nothing happens while a drain is running, the queue is empty or there is no room; otherwise the head leaves the queue, is submitted and becomes the draining mint |
| Sniper.TokenSniper.Complete | src/services/sniper.ts:70-73 | the settled mint leaves the in-flight set; settling the draining mint clears the flag; otherwise the next head is drained if the flag is clear |
| Sniper.TokenSniper.ClearQueue | src/services/sniper.ts:291-294 | the queue becomes empty and nothing in flight changes |
| Sniper.TokenSniper.ActiveSnipeCount | src/services/sniper.ts:283-285 | the in-flight count never exceeds the configured maximum |
| Monitor.WithNewest | src/services/monitor.ts:235-238 | the new result is at index 0, older entries shift by one, and the length is min(old + 1, 50) |
| Monitor.Revalued | src/services/monitor.ts:290-296 | value set; profit/loss + cost = value; percent · cost = profit/loss · 100 for a non-zero cost; with a zero cost, +Infinity, −Infinity or NaN by the sign of the value; no other field changes |
| Monitor.NewPosition | src/services/monitor.ts:252-258 | the new position is open and well formed under its mint, with cost = amount spent, entry time = the result's time, tokens = the amount or 0, and no value or profit yet |
| Monitor.ActivePositions | src/services/monitor.ts:335 | every listed position is an active ledger entry, and every active entry is listed |
| Monitor.ActivePositionsInOrder | src/services/monitor.ts:335 | the list holds the ledger's entries at strictly increasing iteration indexes, which are exactly the indexes of the active entries: iteration order, one entry per active index |
| Monitor.ActiveMintsDistinct | src/services/monitor.ts:335 | over a well-formed ledger, no two listed positions share a mint |
| Monitor.ExitDecision | src/services/monitor.ts:298-305 | for a finite percent x: closes iff x ≠ 0 and (x ≥ take-profit or x ≤ −stop-loss); take-profit iff x ≠ 0 and x ≥ take-profit; undefined or NaN never closes; ±Infinity takes profit or stops the loss |
| Monitor.ExitThresholdsInValue | src/services/monitor.ts:293-302 | for a positive cost, the take-profit comparison holds iff value ≥ cost·(1 + tp/100), and the stop-loss comparison iff value ≤ cost·(1 − sl/100); the rule takes profit iff value ≠ cost and the first holds, and exits iff value ≠ cost and either holds |
| Monitor.ZeroCostBasisExits | src/services/monitor.ts:293-302 | with a zero cost, any gain takes profit, any loss stops it, and an unchanged value never exits |
| Monitor.RevaluedIdempotent | src/services/monitor.ts:293-295 | revaluing twice at the same value gives the same position |
| Monitor.ClosedIsFinal | src/services/monitor.ts:274-275 | a closed position is never changed by a sweep and adds nothing |
| Monitor.SweepStepIdempotent | src/services/monitor.ts:273-286 | a second sweep of a position at the same value changes nothing and adds nothing |
| Monitor.SweepClosesIff | src/services/monitor.ts:274-324 | an open position closes iff its value was known and the exit rule fired; it then gets that exit time and brings its truthy profit/loss; otherwise it brings nothing |
| Monitor.ResweepAddsNothing | src/services/monitor.ts:273-287 | a second sweep over the swept ledger at the same values adds nothing to the cumulative profit/loss |
| Monitor.ResweepChangesNothing | src/services/monitor.ts:273-287 | a second sweep at the same values leaves every position as the first left it |
| Monitor.SweepAdvances | src/services/monitor.ts:274-286 | one loop step keeps the sweep's invariant: entries done so far are swept, the rest untouched, and the total grows by that entry's gain |
| Monitor.SweptInOrder | src/services/monitor.ts:274-286 | sweeping every key in iteration order yields the swept ledger |
| Monitor.TakeProfitScenario | src/services/monitor.ts:293-324 | cost 1.0, value 2.0, take-profit 100 %: TAKE_PROFIT, closed, 1.0 realized |
| Monitor.TokenMonitor.constructor | src/services/monitor.ts:13-23 | monitor stopped, no position, no activity, no dedup entry, counters at zero |
| Monitor.TokenMonitor.StartMonitoring | src/services/monitor.ts:39-65 | no-op when already monitoring; otherwise sets the flag, resets it when a subscription fails, and installs the sweep interval when auto-sell is on |
| Monitor.TokenMonitor.StopMonitoring | src/services/monitor.ts:70-73 | clears the flag only; everything else, including the sweep interval, stays |
| Monitor.TokenMonitor.MarkMintAsSniped | src/services/monitor.ts:24-25 | adds the mint to the dedup set and changes nothing else |
| Monitor.TokenMonitor.Expire | src/services/monitor.ts:26 | removes only that mint from the dedup set |
| Monitor.TokenMonitor.AddPosition | src/services/monitor.ts:251-267 | stores an open position keyed by the mint, with cost = amount spent and tokens = the truthy amount or 0; iteration order gains the key only if new; other entries untouched |
| Monitor.TokenMonitor.AttemptSnipe | src/services/monitor.ts:213-249 | a recently seen mint changes nothing; otherwise the mint is marked and the attempt counted; a returned result bumps exactly one of success/failure and is pushed to recent activity; a success also stores its position; a throw bumps neither |
| Monitor.TokenMonitor.UpdatePositionValue | src/services/monitor.ts:290-296 | replaces that entry by its revaluation, and nothing else changes |
| Monitor.TokenMonitor.ExecuteSell | src/services/monitor.ts:317-330 | closes that entry at the given time and adds its truthy profit/loss to the total |
| Monitor.TokenMonitor.CheckExitConditions | src/services/monitor.ts:298-315 | returns the exit rule's action; sells when it is an action; leaves ledger and totals alone otherwise |
| Monitor.TokenMonitor.SweepPosition | src/services/monitor.ts:275-285 | one loop body: the entry becomes its sweep step, and the total grows by its gain |
| Monitor.TokenMonitor.Sweep | src/services/monitor.ts:269-288 | without the interval, nothing happens; with it, the ledger becomes the pointwise sweep and the total grows by the gains summed in iteration order |
| Monitor.TokenMonitor.GetMonitoringData | src/services/monitor.ts:332-340 | counters consistent, at most 50 activity entries, the active positions exactly the ledger's open ones in iteration order with one entry per open mint, uptime = now − start |
| Monitor.SweepTwice | src/services/monitor.ts:273-287 | two firings of the interval at the same values leave the ledger and the total as one firing does |

The client methods `Sniper.CapacityScenario`,
`Sniper.RequeuedTokenSnipedTwice` and `Monitor.DedupScenario` walk through
three situations without an `ensures`.

- `CapacityScenario`: with room for two, three tokens arrive; the third is
  queued and starts when the first settles.
- `RequeuedTokenSnipedTwice`: with room for one, a token queued twice is
  drained once, settles, and is then drained again as a fresh snipe.
- `DedupScenario`: a repeat sighting is dropped, and counts again after
  its window expires.

## Left out

- I/O of every kind is outside the model: the WebSocket subscriptions, the
  mock parsers that build a placeholder token, RPC calls, logging, events,
  Telegram notifications, and transaction construction and signing. Their
  results are inputs.
- Timers and the snipe delay are omitted. The 45 s dedup TTL, the 100 ms
  re-drain and the 30 s interval are explicit events the caller issues.
- Interleavings the event loop allows inside one `await` are not modelled.
  One example is a sighting arriving while a sweep is between two positions.
  Each event runs to completion.
- Monitor.TokenMonitor.UpdatePositionValue: takes the current value as an
  input, not the hard-coded `costBasisSol * 1.1`.
- Issue descriptions and recommendations, and the `description` text, are
  not modelled. An issue is its type and its severity.
- Security.ToLower: folds only ASCII letters. Full Unicode `toLowerCase` is
  not modelled, and the case-insensitive regexes become substring tests.
- Floating point is modelled as exact reals: no rounding and no NaN inputs.
  Division by a zero cost basis is modelled (`Ratio`); other NaN/Infinity
  arithmetic is not.
- A position is replaced as a value in the ledger map, not mutated in
  place. So `getMonitoringData` returning live references (aliasing) is not
  captured.
- Sniper.TokenSniper.Submit: stands for snipeToken up to its first await.
  The shared promise is a `Pending(mint)` handle, and the result it later
  resolves to is `ExecuteSnipe` of that moment's inputs.
- `isActive()`, `getQueueLength()` and the configuration loading only read
  a field. They carry no contract.

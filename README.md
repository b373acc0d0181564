# MagajiCo prediction platform: a Dafny model of its core logic

MagajiCo is a sports prediction platform. Its core works out a home/draw/away
probability for a fixture. It fuses three inputs: an ensemble of classifiers,
a heuristic "market" model and a "sharp odds" model. The fused result is then
scored for confidence, risk and value bets. Around that core sit a Pi-coin
ledger, payment and child-safety (COPPA) rules, news access gating, caches,
rate limiters, a health monitor, and a set of small calculators behind the web
widgets: streaks, calibration buckets, daily limits, league tiers, a block
hash, locale choice, device detection, themes and favourites lists.

The model has one Dafny module per source file. Arithmetic on probabilities is
over `real`, and Python's and JavaScript's integer operations are written out
where they differ from Dafny's. Stateful parts stay stateful:
- The ledgers, the health monitor, the recovery ledger, the ML API's rate
  limiter and cache, the subscriber lists, the locale manager, the device
  detector, the theme hook, the author service and the block-hash panel are
  classes.
- Their methods carry `modifies` clauses and state the whole new state.
- Each class keeps a `Valid()` invariant, which its methods preserve.

The following are parameters of the model, not parts of it:
- the database, `fetch` and the browser's storage;
- the clock and the random draws;
- the trained estimators;
- `tanh` and the standard deviation (a function parameter with stated ranges).

These are shared modules:
- `Wrappers` holds `Option` and `Result`.
- `Seqs` holds filtering, counting, sorting and sums over sequences.
- `Strings` holds trimming, splitting, case-insensitive search, padding and number rendering.
- `Numbers` holds JavaScript's `Math.round`.

`MlPredictor.ConfidenceBlend` uses the risk factor of
apps/backend/ml/enhanced_prediction.py:340, which is 1 − (std + 0.5·|line
movement|)/2.

## Model

| member | source | states |
|---|---|---|
| MarketModels.Normalize | apps/backend/ml/enhanced_prediction.py:36-37 | dividing each entry by the total gives entries that sum to 1, positive when the input is, and scaling back by the total restores the input |
| MarketModels.DecimalOdd | apps/backend/ml/enhanced_prediction.py:83 | the odd is positive, is the reciprocal of a positive value, and is exactly 100 for a non-positive one, so the conversion never divides by zero |
| MarketModels.DecimalOddAboveMargin | apps/backend/ml/enhanced_prediction.py:80-83 | for a probability strictly between 0 and 1, the odd after the 2% margin exceeds 1/0.98 |
| MarketModels.Clamp | apps/backend/ml/enhanced_prediction.py:30-32 | the result lies in [lo, hi] and leaves a value already inside unchanged |
| MarketModels.RawMarket | apps/backend/ml/enhanced_prediction.py:20-32 | before normalisation home and away lie in [0.1, 0.8] and draw in [0.15, 0.4] |
| MarketModels.MarketProbability | apps/backend/ml/enhanced_prediction.py:20-37 | the three market values are positive, sum to 1, have the floors 0.05/0.075/0.05 implied by the clamps, and are the raw values divided by their total |
| MarketModels.SharpMoneyHome | apps/backend/ml/enhanced_prediction.py:92-95 | the home indicator is capped at 1 |
| MarketModels.SharpMoneyAway | apps/backend/ml/enhanced_prediction.py:96-97 | the away indicator is capped at 1 |
| MarketModels.LineMovement | apps/backend/ml/enhanced_prediction.py:99-103 | the simulated line movement lies strictly in (-1, 1) |
| MarketModels.Boost | apps/backend/ml/enhanced_prediction.py:62-68 | the home boost fires exactly when the home indicator exceeds 0.6, the away boost exactly when it does not and the away indicator does: at most one branch of the elif fires |
| MarketModels.SharpAdjustmentEffect | apps/backend/ml/enhanced_prediction.py:62-73 | the draw entry is never adjusted before renormalisation, and the home/away shifts change the total by exactly the boost on each side |
| MarketModels.SharpAdjustedPositive | apps/backend/ml/enhanced_prediction.py:62-77 | starting from a market distribution every adjusted entry stays positive, so the renormalisation never divides by zero |
| MarketModels.MarginOdds | apps/backend/ml/enhanced_prediction.py:80-83 | every odd of the 2%-margin conversion is positive |
| MarketModels.CalculateSharpOdds | apps/backend/ml/enhanced_prediction.py:53-90 | succeeds exactly when the adjusted total is non-zero; then the probabilities are the normalised adjustment and sum to 1, the odds are their margin odds, sharp confidence is the larger indicator and at most 1, and the line movement is the simulated one, in (-1, 1) |
| MarketModels.SharpOddsAboveMargin | apps/backend/ml/enhanced_prediction.py:76-83 | with three positive normalised probabilities every odd exceeds 1/0.98 |
| MarketModels.Argmax | apps/backend/ml/enhanced_prediction.py:291 | the chosen outcome holds the maximum, and it is the first index holding it (ties go to the lower index, as np.argmax does) |
| MlPredictor.EnsembleWeights | apps/backend/ml/enhanced_prediction.py:212-221 | the weights exist exactly when the score total is non-zero; they then sum to 1, are non-negative for non-negative scores, and each is its score's share of the total |
| MlPredictor.Signals | apps/backend/ml/enhanced_prediction.py:227-240 | five signals are appended: home xG, away xG, weather, injury and motivation |
| MlPredictor.MotivationBetweenFormAndH2h | apps/backend/ml/enhanced_prediction.py:238 | motivation is (f0 + 0.5·f2)/1.5, a weighted mean that lies between recent form and head-to-head |
| MlPredictor.Predictor.EnhanceFeatures | apps/backend/ml/enhanced_prediction.py:223-242 | the input is copied verbatim into the leading positions, the five signals follow, and the result is cut to 12 entries (7 inputs give exactly 12); it equals the base features followed by the signals, cut to 12 |
| MlPredictor.EnsembleIsDistribution | apps/backend/ml/enhanced_prediction.py:256-261 | weights summing to 1 mix three distributions into one that sums to 1, non-negative when the weights and the inputs are |
| MlPredictor.FusionIsDistribution | apps/backend/ml/enhanced_prediction.py:282-286 | the 0.6/0.25/0.15 fusion of three distributions sums to 1, and is positive when the market parts are |
| MlPredictor.NormalizeOne | apps/backend/ml/enhanced_prediction.py:289 | normalising a vector that already sums to 1 changes nothing |
| MlPredictor.MagajicoConfidence | apps/backend/ml/enhanced_prediction.py:323-353 | the blended confidence is capped at 1 and equals the weighted blend of the five checks whenever that is at most 1 |
| MlPredictor.ConfidenceHasNoFloor | apps/backend/ml/enhanced_prediction.py:338-351 | the confidence has no lower cap: seven features of -100 give a negative confidence |
| MlPredictor.Trunc | apps/backend/ml/enhanced_prediction.py:360-364 | Python int() truncates toward zero, for both signs |
| MlPredictor.DetermineMarketPosition | apps/backend/ml/enhanced_prediction.py:370-379 | market leader exactly when prob > 0.8 and sharp > 0.75, uncertain exactly when prob <= 0.6 |
| MlPredictor.MarketPositionMonotone | apps/backend/ml/enhanced_prediction.py:370-379 | a higher probability and sharp confidence never give a weaker position |
| MlPredictor.Variance | apps/backend/ml/enhanced_prediction.py:383 | the population variance is non-negative |
| MlPredictor.SquaresNonNegative | apps/backend/ml/enhanced_prediction.py:383 | the sum of the squared deviations behind np.var is non-negative |
| MlPredictor.RiskScore | apps/backend/ml/enhanced_prediction.py:384-386 | variance plus half the absolute line movement is non-negative |
| MlPredictor.ClassifyRisk | apps/backend/ml/enhanced_prediction.py:388-393 | low below 0.1, medium in [0.1, 0.2), high from 0.2, each an if-and-only-if |
| MlPredictor.CalculateRiskMetrics | apps/backend/ml/enhanced_prediction.py:395-403 | spread, variance and volatility are non-negative, the overall score is variance + 0.5·volatility and classifies to the same level as the risk level, and sharp risk is 1 − sharp confidence |
| MlPredictor.EdgeAboveTenth | apps/backend/ml/enhanced_prediction.py:415-416 | passing the 10% threshold gives an edge above 0.1 |
| MlPredictor.BetFor | apps/backend/ml/enhanced_prediction.py:411-424 | an outcome is reported exactly when the model probability beats the implied one by 10%; the report carries the outcome's probabilities and odd, an edge above 10%, and "high" exactly when the edge exceeds 20% |
| MlPredictor.ValueBets | apps/backend/ml/enhanced_prediction.py:405-426 | at most three value bets |
| MlPredictor.ValueBetsReported | apps/backend/ml/enhanced_prediction.py:415 | an outcome appears in the list if and only if the model beats the implied probability by 10% |
| MlPredictor.ValueBetFacts | apps/backend/ml/enhanced_prediction.py:416-424 | every reported bet carries its outcome's model and implied probabilities and odd, an edge above 10%, and the high/medium tag by the 20% edge |
| MlPredictor.ValueBetsOrdered | apps/backend/ml/enhanced_prediction.py:408-410 | reports keep the home, draw, away order |
| MlPredictor.BetsOverOutcomes | apps/backend/ml/enhanced_prediction.py:408-426 | the loop over the three outcomes builds the same list as the specification |
| MlPredictor.IdentifyValueBets | apps/backend/ml/enhanced_prediction.py:405-426 | the loop returns exactly the specified value bets |
| MlPredictor.MaxEdge | apps/backend/ml/enhanced_prediction.py:435 | the maximum edge bounds every bet and is attained by one |
| MlPredictor.MaxEdgeAboveTen | apps/backend/ml/enhanced_prediction.py:435-442 | any reported bet has an edge above 10%, so the maximum does too |
| MlPredictor.DetectValueOpportunity | apps/backend/ml/enhanced_prediction.py:428-442 | no value exactly when no bet is reported, high value exactly when some edge exceeds 20%, and low value is never produced |
| MlPredictor.StrategicAnalysisOf | apps/backend/ml/enhanced_prediction.py:355-368 | innovation score in [0, 100], smart money exactly when sharp confidence > 0.7, the risk level of the risk metrics, never low value, and a non-negative line-movement impact |
| MlPredictor.RawMarketReadsSevenFeatures | apps/backend/ml/enhanced_prediction.py:20-32 | the raw market values depend on the first seven features only |
| MlPredictor.MarketModelsReadSevenFeatures | apps/backend/ml/enhanced_prediction.py:20-103 | the market probabilities and the sharp adjustment depend on the first seven features only |
| MlPredictor.ConfidenceReadsSevenFeatures | apps/backend/ml/enhanced_prediction.py:338 | the confidence depends on the first seven features only |
| MlPredictor.Predictor.TrainEnsemble | apps/backend/ml/enhanced_prediction.py:201-221 | the weights become the normalised cross-validation scores |
| MlPredictor.Predictor.Predict | apps/backend/ml/enhanced_prediction.py:244-321 | succeeds exactly with at least seven features and trained weights; the three classifier outputs are the estimators applied to the scaled enhanced features; the market and sharp models and the sharp confidence and line movement are those of the first seven features; the result fuses the weighted ensemble with them, sums to 1, is positive for non-negative weights, predicts the argmax, and carries the capped confidence, the analysis, the risk metrics and the value bets |
| MlPredictor.Predictor.constructor | apps/backend/ml/enhanced_prediction.py:106-141 | a new predictor keeps the given estimators and is trained at once: its ensemble weights are the normalised cross-validation scores |
| PiCoinManager.NewWallet | packages/shared/src/libs/utils/piCoinManager.ts:97-113 | a new wallet is consistent, holds 50 coins earned and none spent, has one 50-coin welcome earn transaction, level 1 and the "new_user" achievement |
| PiCoinManager.Credit | packages/shared/src/libs/utils/piCoinManager.ts:149-151 | an incoming amount raises balance and totalEarned by it, appends the transaction, leaves totalSpent alone and keeps the wallet consistent |
| PiCoinManager.Debit | packages/shared/src/libs/utils/piCoinManager.ts:186-188 | an outgoing amount lowers the balance and raises totalSpent by it, appends the transaction, leaves totalEarned alone and keeps the wallet consistent |
| PiCoinManager.Promote | packages/shared/src/libs/utils/piCoinManager.ts:266-267 | the level rises by one and "level_<n+1>" is appended; nothing else changes |
| PiCoinManager.LevelUp | packages/shared/src/libs/utils/piCoinManager.ts:264-271 | one round of checkLevelUp: when totalEarned reaches 100 × level the level rises by one and "level_<n>" is appended, and a positive bonus of 10 × the new level is credited with its own transaction while a non-positive one is refused; a wallet not due is unchanged. It is the corrected step used only where the source never settles |
| PiCoinManager.Cascade | packages/shared/src/libs/utils/piCoinManager.ts:264-271 | checkLevelUp as written, whose bonus is a nested earnCoins that checks again: a wallet not due is unchanged; a settled cascade keeps the owner and spending, credits balance and totalEarned alike, never lowers the level, raises it when due, appends one transaction per bonus and one achievement per level, and ends not due (or at a non-positive level) with one bonus per level gained from a non-negative level; it fails to settle only for a wallet that is due |
| PiCoinManager.LevelUps | packages/shared/src/libs/utils/piCoinManager.ts:264-271 | the level-ups after a credit: the level changes exactly when the wallet is due, never falls, balance and totalEarned grow alike, one transaction is appended per bonus after the old ones, and a wallet not due is unchanged |
| PiCoinManager.Earned | packages/shared/src/libs/utils/piCoinManager.ts:149-154 | a successful earn keeps the wallet consistent, its owner and its spending, appends the earn transaction first, adds at least the amount, never lowers the level, and the balance grows exactly as much as totalEarned |
| PiCoinManager.CascadeNeverSettles | packages/shared/src/libs/utils/piCoinManager.ts:154 | as written, checkLevelUp's nested earnCoins calls checkLevelUp again; once totalEarned is at least 900 and due, every bonus keeps it due and the recursion never ends |
| PiCoinManager.NewWalletEarningThousandDiverges | packages/shared/src/libs/utils/piCoinManager.ts:124-158 | a new wallet (50 earned, level 1) that earns 1000 never returns from earnCoins |
| PiCoinManager.CascadeAsWritten | packages/shared/src/libs/utils/piCoinManager.ts:154 | the source's recursion on totalEarned and level within a number of rounds: a settled result never lowers either; a refused non-positive bonus ends it |
| PiCoinManager.CascadeIsAsWritten | packages/shared/src/libs/utils/piCoinManager.ts:154 | the wallet cascade settles exactly where the source's recursion settles, within MaxRounds rounds and on the same totalEarned and level; where it does not, no number of rounds settles the recursion |
| PiCoinManager.LevelUpsAgreeWhereSourceSettles | packages/shared/src/libs/utils/piCoinManager.ts:154 | wherever the source's recursion settles, the modelled level-ups end on its totalEarned and level |
| PiCoinManager.LevelUpsOnceWhereSourceDiverges | packages/shared/src/libs/utils/piCoinManager.ts:154 | wherever the source's recursion never settles, the model performs exactly one level-up, with one bonus |
| PiCoinManager.NewWalletEarningTwoHundred | packages/shared/src/libs/utils/piCoinManager.ts:124-158 | a new wallet (50 earned, level 1) earning 200 levels up three times, to level 4 and a balance of 340, with three bonuses |
| PiCoinManager.Recent | packages/shared/src/libs/utils/piCoinManager.ts:77-79 | the kept timestamps are exactly those within the 60-second window |
| PiCoinManager.RecentIdempotent | packages/shared/src/libs/utils/piCoinManager.ts:77-81 | pruning twice at the same instant is pruning once |
| PiCoinManager.WalletsInOrder | packages/shared/src/libs/utils/piCoinManager.ts:285 | the wallets listed in insertion order, one per key |
| PiCoinManager.Transferred | packages/shared/src/libs/utils/piCoinManager.ts:247-256 | a transfer keeps the keys and the owners and touches only the sender and the receiver |
| PiCoinManager.TransferConserves | packages/shared/src/libs/utils/piCoinManager.ts:247-256 | the sender loses exactly the amount; the receiver gains the amount plus every bonus of its level-ups, which credit the same to balance and totalEarned; the total supply changes by exactly those bonuses, never falls, and is unchanged when no bonus is credited |
| PiCoinManager.TransferStamps | packages/shared/src/libs/utils/piCoinManager.ts:198-259 | after a transfer the sender's pruned timestamps gain one stamp, and the receiver's gain one per nested bonus earn plus its own |
| PiCoinManager.SelfTransferStamps | packages/shared/src/libs/utils/piCoinManager.ts:198-259 | when sender and receiver are one user, both rate checks prune the same list, and the user ends with its pruned timestamps plus one stamp per nested bonus earn and two more for the transfer's own two stamps |
| PiCoinManager.Manager.constructor | packages/shared/src/libs/utils/piCoinManager.ts:30-32 | the ledger starts empty |
| PiCoinManager.Manager.IsRateLimited | packages/shared/src/libs/utils/piCoinManager.ts:72-84 | limited exactly when ten or more timestamps lie in the window; the pruned list is stored, even when empty |
| PiCoinManager.Manager.AddTransactionTimestamp | packages/shared/src/libs/utils/piCoinManager.ts:86-90 | appends the current instant to the user's timestamps and changes nothing else |
| PiCoinManager.Manager.CreateWallet | packages/shared/src/libs/utils/piCoinManager.ts:92-118 | an existing wallet is returned unchanged; otherwise a new wallet is stored under the user and returned |
| PiCoinManager.Manager.GetWallet | packages/shared/src/libs/utils/piCoinManager.ts:120-122 | some wallet exactly when the user has one, and then that wallet |
| PiCoinManager.Manager.EarnCoins | packages/shared/src/libs/utils/piCoinManager.ts:124-159 | succeeds exactly for a positive amount, an unlimited user and an existing wallet; a failure changes no wallet; success credits the wallet and runs its level-ups, and stamps the limiter once for the earn and once for each nested bonus earn |
| PiCoinManager.Manager.SpendCoins | packages/shared/src/libs/utils/piCoinManager.ts:161-193 | succeeds exactly for a positive amount, an unlimited user and a wallet holding at least the amount; success debits the wallet, leaves a non-negative balance and stamps the limiter once |
| PiCoinManager.Manager.TransferCoins | packages/shared/src/libs/utils/piCoinManager.ts:195-262 | succeeds exactly for a positive amount, both users unlimited (the receiver checked after the sender's prune), both wallets present and enough balance; the sender loses the amount, the total supply changes by exactly the receiver's level-up bonuses, and both users are stamped, the receiver once more per bonus; a transfer to oneself leaves that user's pruned timestamps with two stamps more than its nested bonus earns |
| PiCoinManager.Manager.GetTransactionHistory | packages/shared/src/libs/utils/piCoinManager.ts:275-282 | a missing wallet gives nothing; otherwise the wallet's own list is sorted newest first in place and at most limit entries are returned, newest first |
| PiCoinManager.Manager.GetLeaderboard | packages/shared/src/libs/utils/piCoinManager.ts:284-294 | richest first, at most limit entries, each the balance, level and totalEarned of a stored wallet; no wallet is listed twice and no wallet left out is richer than a listed one |
| PiCoinManager.RankedMembers | packages/shared/src/libs/utils/piCoinManager.ts:285-286 | a reordering of the stored wallets holds only stored wallets under their own keys |
| PiCoinManager.Entries | packages/shared/src/libs/utils/piCoinManager.ts:288-293 | each entry copies its wallet's user, balance, level and totalEarned |
| PiCoinManager.EntriesOfStored | packages/shared/src/libs/utils/piCoinManager.ts:286-293 | entries of stored wallets ranked by balance stay ranked and describe the stored wallets |
| PiCoinManager.LeaderboardTop | packages/shared/src/libs/utils/piCoinManager.ts:284-294 | the leaderboard lists no wallet twice, and no wallet it leaves out is richer than one it lists |
| PiCoinManager.Manager.GetActiveUsersCount | packages/shared/src/libs/utils/piCoinManager.ts:314-316 | the number of stored wallets |
| PiCoinManager.Manager.ImportWalletData | packages/shared/src/libs/utils/piCoinManager.ts:325-342 | succeeds exactly for parsed data of the same user, which is then stored under the user; a failure changes nothing |
| PiCoinManager.Manager.PurchasePiCoins | packages/shared/src/libs/utils/piCoinManager.ts:345-351 | a purchase is an earn described as "Purchased <amount> Pi Coins via <method>" |
| PiCoinManager.Manager.GetBalance | packages/shared/src/libs/utils/piCoinManager.ts:354-365 | an existing wallet gives its balance summary; a missing user gets a new wallet, which is stored and returned whole |
| PiCoinManager.Manager.ResetWallet | packages/shared/src/libs/utils/piCoinManager.ts:373-380 | succeeds exactly when the user had a wallet, which is deleted |
| PiCoinManager.Remove | packages/shared/src/libs/utils/piCoinManager.ts:375 | removing a key from the insertion order keeps the other keys and no duplicates |
| PiCoinManager.Manager.GetTransactionRateInfo | packages/shared/src/libs/utils/piCoinManager.ts:383-405 | limited exactly when the window holds ten or more stamps; remaining is never negative, is 0 when limited, and otherwise completes the recent count to ten |
| PiCoinManager.Manager.AddTransaction | packages/shared/src/libs/utils/piCoinManager.ts:408-415 | an earn or a spend succeeds under the same conditions as earnCoins or spendCoins; a transfer is refused and changes nothing |
| PiCoinController.NewPiWallet | apps/api/src/modules/picoins/controllers/piCoinController.ts:14 | a wallet created for a user starts at zero balance, earnings and spending, with no transactions or achievements and level 1 (the schema defaults, whose model file is not part of this model) |
| PiCoinController.LevelBand | apps/api/src/modules/picoins/controllers/piCoinController.ts:66 | the level floor(totalEarned / 1000) + 1 is the k with totalEarned in [1000(k−1), 1000k) |
| PiCoinController.LevelMonotone | apps/api/src/modules/picoins/controllers/piCoinController.ts:66 | more earnings never give a lower level |
| PiCoinController.LevelAtLeastOne | apps/api/src/modules/picoins/controllers/piCoinController.ts:66 | non-negative earnings give a level of at least 1 |
| PiCoinController.Earned | apps/api/src/modules/picoins/controllers/piCoinController.ts:61-66 | an earn raises balance and totalEarned by the amount, appends the transaction, and sets the level from the new total; nothing else changes |
| PiCoinController.Debited | apps/api/src/modules/picoins/controllers/piCoinController.ts:123-125 | a spend lowers the balance and raises totalSpent by the amount and appends the transaction; nothing else changes |
| PiCoinController.Received | apps/api/src/modules/picoins/controllers/piCoinController.ts:194-196 | a transfer in raises balance and totalEarned and appends the transaction, but leaves the level as it was |
| PiCoinController.UpdatesKeepConsistent | apps/api/src/modules/picoins/controllers/piCoinController.ts:61-196 | earning, spending, sending and receiving all keep balance = totalEarned − totalSpent |
| PiCoinController.ReceivedLevelLags | apps/api/src/modules/picoins/controllers/piCoinController.ts:194-196 | a receiver's level can fall behind its earnings: 1000 received leaves level 1 where an earn would give 2 |
| PiCoinController.EarnRequestError | apps/api/src/modules/picoins/controllers/piCoinController.ts:31-43 | no error exactly when user and description are non-empty and the amount is positive; any error is a 400, and a negative amount with the other fields present is "Amount must be positive" |
| PiCoinController.TransferRequestError | apps/api/src/modules/picoins/controllers/piCoinController.ts:142-154 | no error exactly when both users and the description are non-empty and the amount is positive; any error is a 400 |
| PiCoinController.SortFieldFor | apps/api/src/modules/picoins/controllers/piCoinController.ts:257-259 | sorted by totalEarned exactly when sortBy is "earned", by balance otherwise (including a missing sortBy) |
| PiCoinController.Rows | apps/api/src/modules/picoins/controllers/piCoinController.ts:264 | each row is the selected fields of its wallet |
| PiCoinController.Limited | apps/api/src/modules/picoins/controllers/piCoinController.ts:263 | MongoDB's limit: 0 keeps everything, any other n keeps the first min(abs(n), size) documents |
| PiCoinController.WalletsOf | apps/api/src/modules/picoins/controllers/piCoinController.ts:261 | the stored wallets, in insertion order |
| PiCoinController.Loaded | apps/api/src/modules/picoins/controllers/piCoinController.ts:45-176 | the loaded wallet is the stored one, or a new unsaved one with the schema defaults |
| PiCoinController.TransferPreservesPair | apps/api/src/modules/picoins/controllers/piCoinController.ts:181-196 | a transfer leaves the sum of the two balances unchanged, and the sender's spending grows as much as the receiver's earnings |
| PiCoinController.Store.constructor | apps/api/src/modules/picoins/controllers/piCoinController.ts:3 | the wallet collection starts empty |
| PiCoinController.Store.Save | apps/api/src/modules/picoins/controllers/piCoinController.ts:68-207 | a save stores the wallet under its own id, listing the id once when it is new; saving a wallet whose balance is its earnings minus its spending keeps that true of every stored wallet |
| PiCoinController.Store.GetWallet | apps/api/src/modules/picoins/controllers/piCoinController.ts:7-23 | the stored wallet, or a new one with the schema defaults, which is saved |
| PiCoinController.Store.EarnCoins | apps/api/src/modules/picoins/controllers/piCoinController.ts:25-75 | succeeds exactly when the request is valid; an error reply changes nothing; success stores the loaded (possibly new) wallet after the earn |
| PiCoinController.Store.SpendCoins | apps/api/src/modules/picoins/controllers/piCoinController.ts:77-134 | the request errors first, then 404 "Wallet not found", then 400 "Insufficient balance"; success exactly when none applies, and it stores the debited wallet |
| PiCoinController.Store.TransferCoins | apps/api/src/modules/picoins/controllers/piCoinController.ts:136-218 | the request errors, then 404 for a missing sender, then 400 for too low a balance, and an error changes nothing; a transfer to oneself is accepted. Between two users success is the intended transfer (the sender debited, the possibly new receiver credited, under one transfer id): it keeps the total balance, and every balance equal to earnings minus spending. To oneself it stores the wallet as both saves leave it, and the total balance grows by the amount |
| PiCoinController.Store.SaveTransfer | apps/api/src/modules/picoins/controllers/piCoinController.ts:156-207 | between two users: the sender is saved debited, then the receiver credited; the total balance is kept, and so is every balance equal to earnings minus spending, and a new receiver is listed last |
| PiCoinController.Store.SaveSelfTransfer | apps/api/src/modules/picoins/controllers/piCoinController.ts:156-207 | to oneself: two copies of the wallet are loaded before either save; the wallet ends as the second save leaves it over the first, and the total balance grows by the amount |
| PiCoinController.SelfTransferAsWritten | apps/api/src/modules/picoins/controllers/piCoinController.ts:178-207 | after a transfer to oneself the wallet has the balance and earnings of the credited copy, the spending of the debited copy, and both transactions in order |
| PiCoinController.SelfTransferMints | apps/api/src/modules/picoins/controllers/piCoinController.ts:156-207 | a transfer to oneself as written raises the wallet and the summed balance by the amount, where the intended transfer leaves the balance as it was, and leaves a balance that is no longer earnings minus spending |
| PiCoinController.Transferred | apps/api/src/modules/picoins/controllers/piCoinController.ts:178-207 | the intended transfer touches only the two parties' wallets, and adds the receiver's when it is new |
| PiCoinController.TransferredConserves | apps/api/src/modules/picoins/controllers/piCoinController.ts:178-207 | the intended transfer, a transfer to oneself included, keeps the summed balance and every wallet's balance equal to its earnings minus its spending |
| PiCoinController.Store.GetTransactions | apps/api/src/modules/picoins/controllers/piCoinController.ts:220-250 | a missing wallet gives an empty page with total 0; otherwise the newest-first window [offset, offset + limit) of a permutation of the transactions, and the full count |
| PiCoinController.Store.GetLeaderboard | apps/api/src/modules/picoins/controllers/piCoinController.ts:252-271 | the rows are sorted largest first on the chosen field, limited as MongoDB does, each a stored wallet's row; no wallet is shown twice and no wallet left out ranks above a shown one |
| PiCoinController.LeaderboardTop | apps/api/src/modules/picoins/controllers/piCoinController.ts:252-271 | the leaderboard shows no wallet twice, and no wallet it leaves out ranks above a shown one on the chosen field |
| PiCoinController.LeaderboardRows | apps/api/src/modules/picoins/controllers/piCoinController.ts:252-271 | the leaderboard is sorted largest first on the chosen field, is cut at the absolute value of limit (all wallets when limit is 0), and each row shows the stored wallet of its user |
| PiCoinController.StoredWallets | apps/api/src/modules/picoins/controllers/piCoinController.ts:261-262 | a reordering of the listed wallets holds only stored wallets under their own ids |
| PiCoinController.RowsRanked | apps/api/src/modules/picoins/controllers/piCoinController.ts:262-264 | the selected rows of ranked wallets stay ranked on the chosen field |
| PiCoinController.Store.AddAchievement | apps/api/src/modules/picoins/controllers/piCoinController.ts:273-305 | 400 when a field is empty, 404 for a missing wallet, otherwise success with the achievement added |
| PiCoinController.WithAchievement | apps/api/src/modules/picoins/controllers/piCoinController.ts:295-298 | the achievement ends up present; it is appended only when absent |
| PiCoinController.AchievementIdempotent | apps/api/src/modules/picoins/controllers/piCoinController.ts:295-298 | adding an achievement twice is adding it once, and the list stays free of duplicates |
| Consensus.Votes | apps/api/src/modules/predictions/services/multiSourcePredictionService.ts:47-51 | at most three votes, none exactly when all three sources are absent, the ml vote first when present |
| Consensus.TallyExtend | apps/api/src/modules/predictions/services/multiSourcePredictionService.ts:59-65 | one more vote adds one to its prediction's count and its confidence to the total, and leaves the other tallies alone |
| Consensus.LabelsExtend | apps/api/src/modules/predictions/services/multiSourcePredictionService.ts:57-65 | a new prediction becomes the last key of the counting map; a known one keeps the key order |
| Consensus.LabelsCounted | apps/api/src/modules/predictions/services/multiSourcePredictionService.ts:57-65 | a prediction is a key of the counting map exactly when some source voted for it |
| Consensus.LabelsDistinct | apps/api/src/modules/predictions/services/multiSourcePredictionService.ts:57 | the map's keys are distinct |
| Consensus.CountedMeansVoted | apps/api/src/modules/predictions/services/multiSourcePredictionService.ts:59-65 | a positive count means some source voted for that prediction, and back |
| Consensus.ScanLeads | apps/api/src/modules/predictions/services/multiSourcePredictionService.ts:67-77 | the scan ends on a visited key with the largest count and, among those, the largest summed confidence |
| Consensus.ScanKeepsEarliest | apps/api/src/modules/predictions/services/multiSourcePredictionService.ts:72 | an exact tie keeps the earlier key: no key before the winner has the winner's tally |
| Consensus.CalculateConsensus | apps/api/src/modules/predictions/services/multiSourcePredictionService.ts:46-87 | the two passes compute the consensus of the votes |
| Consensus.CountVotes | apps/api/src/modules/predictions/services/multiSourcePredictionService.ts:57-65 | the first pass builds one entry per prediction, keys in first-appearance order, each holding that prediction's tally |
| Consensus.ScanCounts | apps/api/src/modules/predictions/services/multiSourcePredictionService.ts:67-77 | the second pass, over the map in key order, computes the specified scan |
| Consensus.WinnerFacts | apps/api/src/modules/predictions/services/multiSourcePredictionService.ts:67-77 | the winner is a voted prediction whose tally no other voted prediction beats |
| Consensus.ConsensusFacts | apps/api/src/modules/predictions/services/multiSourcePredictionService.ts:53-86 | undefined exactly without votes; otherwise a voted prediction with the most votes and the most confidence among equals, with its rounded share of the votes as the agreement |
| Consensus.AverageBetween | apps/api/src/modules/predictions/services/multiSourcePredictionService.ts:79-84 | the rounded mean of confidences lying in [lo, hi] lies in [round(lo), round(hi)] |
| Consensus.AgreementRange | apps/api/src/modules/predictions/services/multiSourcePredictionService.ts:80-85 | with one to three sources the agreement lies in [33, 100] |
| Consensus.PercentAll | apps/api/src/modules/predictions/services/multiSourcePredictionService.ts:80 | a count equal to the number of votes gives 100 |
| Consensus.PercentRange | apps/api/src/modules/predictions/services/multiSourcePredictionService.ts:80 | one to three votes out of at most three round to between 33 and 100 |
| Consensus.CountBound | apps/api/src/modules/predictions/services/multiSourcePredictionService.ts:59-65 | no prediction has more votes than there are votes |
| Consensus.UnanimousIsFull | apps/api/src/modules/predictions/services/multiSourcePredictionService.ts:46-86 | unanimous sources give that prediction with 100% agreement |
| Consensus.AllCounted | apps/api/src/modules/predictions/services/multiSourcePredictionService.ts:59-65 | when every vote is for p, p's count is the number of votes |
| Consensus.ConsensusKeepsEarliest | apps/api/src/modules/predictions/services/multiSourcePredictionService.ts:49-77 | exact ties go to the prediction of the earliest source in ml, scraper, database order |
| Consensus.AggregatePredictions | apps/api/src/modules/predictions/services/multiSourcePredictionService.ts:34-44 | the current service always returns an empty list |
| ArchiveAggregation.KeysCanCollide | archive/20251029_044024_full_backup/backend_src/modules/predictions/services/multiSourcePredictionService.ts:48-67 | keys are plain concatenations, so ("A-B", "C") and ("A", "B-C") share one record |
| ArchiveAggregation.DbEntry | archive/20251029_044024_full_backup/backend_src/modules/predictions/services/multiSourcePredictionService.ts:48-60 | a database record is keyed by home-away, holds only a database source with the predicted winner and confidence, and takes matchId or else the object id |
| ArchiveAggregation.ScraperVote | archive/20251029_044024_full_backup/backend_src/modules/predictions/services/multiSourcePredictionService.ts:72-84 | the scraper source falls back to the home team for a missing prediction and to 65 for a missing confidence |
| ArchiveAggregation.ScraperEntry | archive/20251029_044024_full_backup/backend_src/modules/predictions/services/multiSourcePredictionService.ts:77-90 | a new scraped record is keyed by home-away and holds only the scraper source |
| ArchiveAggregation.Enhance | archive/20251029_044024_full_backup/backend_src/modules/predictions/services/multiSourcePredictionService.ts:98-117 | the ML source is set when the service answers and kept otherwise, the other sources and fields are unchanged, and consensus is computed from the record's sources |
| ArchiveAggregation.EnhanceAll | archive/20251029_044024_full_backup/backend_src/modules/predictions/services/multiSourcePredictionService.ts:96-119 | one enhanced record per record, in order |
| ArchiveAggregation.AggregatePredictions | archive/20251029_044024_full_backup/backend_src/modules/predictions/services/multiSourcePredictionService.ts:36-126 | the two filling loops and the ML pass compute the specified aggregate |
| ArchiveAggregation.AddDbPredictions | archive/20251029_044024_full_backup/backend_src/modules/predictions/services/multiSourcePredictionService.ts:46-62 | the database loop folds the selected predictions into the map |
| ArchiveAggregation.AddScrapedMatches | archive/20251029_044024_full_backup/backend_src/modules/predictions/services/multiSourcePredictionService.ts:65-93 | the scraper loop folds the selected matches into the map |
| ArchiveAggregation.EnhanceEach | archive/20251029_044024_full_backup/backend_src/modules/predictions/services/multiSourcePredictionService.ts:97-119 | the Promise.all over the records keeps their order |
| ArchiveAggregation.PutWellFormed | archive/20251029_044024_full_backup/backend_src/modules/predictions/services/multiSourcePredictionService.ts:49-77 | storing a record under its own key keeps the map well formed |
| ArchiveAggregation.FoldDbWellFormed | archive/20251029_044024_full_backup/backend_src/modules/predictions/services/multiSourcePredictionService.ts:47-61 | the database pass keeps the map well formed |
| ArchiveAggregation.FoldScraperWellFormed | archive/20251029_044024_full_backup/backend_src/modules/predictions/services/multiSourcePredictionService.ts:66-92 | the scraper pass keeps the map well formed |
| ArchiveAggregation.FoldScraperKeeps | archive/20251029_044024_full_backup/backend_src/modules/predictions/services/multiSourcePredictionService.ts:70-75 | the scraper pass keeps every key and never touches a database source |
| ArchiveAggregation.FoldDbCovers | archive/20251029_044024_full_backup/backend_src/modules/predictions/services/multiSourcePredictionService.ts:47-61 | every selected database prediction has a record with a database source under its key |
| ArchiveAggregation.FoldScraperCovers | archive/20251029_044024_full_backup/backend_src/modules/predictions/services/multiSourcePredictionService.ts:66-92 | every selected scraped match has a record with a scraper source under its key |
| ArchiveAggregation.FoldScraperKeepsScraper | archive/20251029_044024_full_backup/backend_src/modules/predictions/services/multiSourcePredictionService.ts:70-91 | a record that has a scraper source keeps one |
| ArchiveAggregation.FoldDbSourced | archive/20251029_044024_full_backup/backend_src/modules/predictions/services/multiSourcePredictionService.ts:49-60 | every record keeps a database or scraper source through the database pass |
| ArchiveAggregation.FoldScraperSourced | archive/20251029_044024_full_backup/backend_src/modules/predictions/services/multiSourcePredictionService.ts:70-91 | every record keeps a database or scraper source through the scraper pass |
| ArchiveAggregation.MergedFacts | archive/20251029_044024_full_backup/backend_src/modules/predictions/services/multiSourcePredictionService.ts:43-93 | the merged map is well formed and every record has a database or scraper source |
| ArchiveAggregation.KeysDistinct | archive/20251029_044024_full_backup/backend_src/modules/predictions/services/multiSourcePredictionService.ts:43-96 | one record per home-away key |
| ArchiveAggregation.EveryRecordHasConsensus | archive/20251029_044024_full_backup/backend_src/modules/predictions/services/multiSourcePredictionService.ts:115-116 | consensus is computed for every record from its own sources and is never undefined |
| ArchiveAggregation.MlSourceIffAnswered | archive/20251029_044024_full_backup/backend_src/modules/predictions/services/multiSourcePredictionService.ts:99-113 | a record has an ML source exactly when the service answered for its teams |
| ArchiveAggregation.MergedHasNoMl | archive/20251029_044024_full_backup/backend_src/modules/predictions/services/multiSourcePredictionService.ts:43-93 | before the ML pass no record has an ML source |
| ArchiveAggregation.NoMlDb | archive/20251029_044024_full_backup/backend_src/modules/predictions/services/multiSourcePredictionService.ts:49-60 | the database pass sets no ML source |
| ArchiveAggregation.NoMlScraper | archive/20251029_044024_full_backup/backend_src/modules/predictions/services/multiSourcePredictionService.ts:70-91 | the scraper pass sets no ML source |
| ArchiveAggregation.SameKeyMerges | archive/20251029_044024_full_backup/backend_src/modules/predictions/services/multiSourcePredictionService.ts:67-75 | a database prediction and a scraped match with the same key end in one record holding both sources |
| ArchiveAggregation.FoldDbSize | archive/20251029_044024_full_backup/backend_src/modules/predictions/services/multiSourcePredictionService.ts:47-49 | the database pass adds at most one key per prediction |
| ArchiveAggregation.FoldScraperSize | archive/20251029_044024_full_backup/backend_src/modules/predictions/services/multiSourcePredictionService.ts:66-77 | the scraper pass adds at most one key per match |
| ArchiveAggregation.AggregateSize | archive/20251029_044024_full_backup/backend_src/modules/predictions/services/multiSourcePredictionService.ts:47-66 | at most limit records from each source, so at most 2·limit in all |
| ArchiveAggregation.LaterDbOverwrites | archive/20251029_044024_full_backup/backend_src/modules/predictions/services/multiSourcePredictionService.ts:47-60 | a later database prediction with a duplicate key overwrites the earlier one: each key holds the record of the last prediction with it |
| MagajicoCeo.FilterScore | apps/frontend/src/app/components/ai/magajicoCEO.ts:148-156 | the count of passed checks is at most 7 |
| MagajicoCeo.ScoreCountsChecks | apps/frontend/src/app/components/ai/magajicoCEO.ts:148-156 | the score is the number of the seven checks that pass, counted one by one |
| MagajicoCeo.ChecksOf | apps/frontend/src/app/components/ai/magajicoCEO.ts:135-145 | value opportunity exactly when some edge exceeds 10, risk assessment exactly when the overall risk is below 0.3, confidence check above 0.70; market validation implies the liquidity check; the decision starts as MONITOR |
| MagajicoCeo.Apply7Filter | apps/frontend/src/app/components/ai/magajicoCEO.ts:132-170 | the checks are kept; DOMINATE exactly for score ≥ 6, confidence > 0.85 and some edge > 20; EXECUTE exactly when DOMINATE fails but score ≥ 5 and confidence > 0.75; AVOID exactly for score < 3 |
| MagajicoCeo.DominatePassesChecks | apps/frontend/src/app/components/ai/magajicoCEO.ts:136-159 | a DOMINATE decision has passed the confidence and value checks |
| MagajicoCeo.ScoreThreeNeverAvoids | apps/frontend/src/app/components/ai/magajicoCEO.ts:163-167 | a score of 3 or more never yields AVOID |
| MagajicoCeo.AllChecksDominate | apps/frontend/src/app/components/ai/magajicoCEO.ts:135-160 | with every check passed, confidence above 0.85 and an edge above 20 the decision is DOMINATE |
| ScraperService.SpaceEnd | apps/backend/src/modules/scraper/services/scraperService.ts:93 | the white-space run starting at i ends at the first non-space |
| ScraperService.SeparatorAt | apps/backend/src/modules/scraper/services/scraperService.ts:93 | a separator match starting at q is non-empty and ends within the text |
| ScraperService.SplitFrom | apps/backend/src/modules/scraper/services/scraperService.ts:93 | the split loop always yields at least one piece |
| ScraperService.SplitMatch | apps/backend/src/modules/scraper/services/scraperService.ts:93 | splitting always yields at least one piece |
| ScraperService.SplitFromNoSeparator | apps/backend/src/modules/scraper/services/scraperService.ts:93 | with no separator left, the rest of the text is one piece |
| ScraperService.SplitNoSeparator | apps/backend/src/modules/scraper/services/scraperService.ts:93 | text without a separator splits into itself alone |
| ScraperService.SplitFirstSeparator | apps/backend/src/modules/scraper/services/scraperService.ts:93 | the first place a separator matches cuts the text there |
| ScraperService.SkipToSeparator | apps/backend/src/modules/scraper/services/scraperService.ts:93 | positions without a separator are skipped until the next one |
| ScraperService.SkipFrom | apps/backend/src/modules/scraper/services/scraperService.ts:93 | positions where no separator starts leave the current piece running |
| ScraperService.LettersNoSeparator | apps/backend/src/modules/scraper/services/scraperService.ts:93 | no separator starts anywhere in a run of letters other than v |
| ScraperService.LettersThenSeparator | apps/backend/src/modules/scraper/services/scraperService.ts:93 | a run of letters up to a separator is the next piece, and the split carries on after the separator |
| ScraperService.LettersToEnd | apps/backend/src/modules/scraper/services/scraperService.ts:93 | a run of letters to the end of the text is the last piece |
| ScraperService.SplitTwoRuns | apps/backend/src/modules/scraper/services/scraperService.ts:93 | letters, one separator, letters: exactly the two runs |
| ScraperService.SplitThreeRuns | apps/backend/src/modules/scraper/services/scraperService.ts:93 | letters, a separator, letters, a separator, letters: exactly the three runs |
| ScraperService.LetterStartsNoSeparator | apps/backend/src/modules/scraper/services/scraperService.ts:93 | a letter other than v starts no separator |
| ScraperService.SplitTwoTeams | apps/backend/src/modules/scraper/services/scraperService.ts:93-97 | "Arsenal - Chelsea" splits into the two team names |
| ScraperService.HyphenSplitsThree | apps/backend/src/modules/scraper/services/scraperService.ts:93 | a hyphen inside a team name also separates: "Saint-Etienne - Lyon" gives three pieces |
| ScraperService.HyphenatedTeamDropped | apps/backend/src/modules/scraper/services/scraperService.ts:93-95 | so a row naming "Saint-Etienne" is dropped |
| ScraperService.ClassifyTip | apps/backend/src/modules/scraper/services/scraperService.ts:103-115 | home exactly when the tip contains "1" or "home", else away exactly when it contains "2" or "away"; confidence 70 for those, 60 for an "x"/"draw" tip and 65 for anything else |
| ScraperService.TipProbabilities | apps/backend/src/modules/scraper/services/scraperService.ts:126-130 | the predicted outcome gets the largest attached probability |
| ScraperService.TipProbabilitiesTotal | apps/backend/src/modules/scraper/services/scraperService.ts:126-130 | the attached probabilities sum to 1 for home and away tips but only to 0.9 for a draw tip |
| ScraperService.OddsOrDefault | apps/backend/src/modules/scraper/services/scraperService.ts:100 | unparseable or zero odds become 2.0, any other parsed value is kept, so the odds are never 0 |
| ScraperService.ParseRow | apps/backend/src/modules/scraper/services/scraperService.ts:76-133 | a row gives a prediction exactly when it is not a header, its match text splits into exactly two pieces and its tip is non-empty; the prediction's odds are non-zero and its source is "statarea" |
| ScraperService.ParseRowFields | apps/backend/src/modules/scraper/services/scraperService.ts:96-131 | a parsed row carries the trimmed team names, the tip's classification and probabilities, the odds or 2.0, and tomorrow's date |
| ScraperService.ParsedRows | apps/backend/src/modules/scraper/services/scraperService.ts:76-138 | at most one prediction per row, each with non-zero odds and source "statarea" |
| ScraperService.RowPrediction | apps/backend/src/modules/scraper/services/scraperService.ts:76-133 | a row contributes one prediction exactly when it parses |
| ScraperService.ParseRows | apps/backend/src/modules/scraper/services/scraperService.ts:76-138 | the row loop pushes exactly the parsed rows' predictions |
| ScraperService.StatareaPredictions | apps/backend/src/modules/scraper/services/scraperService.ts:65-212 | the result is never empty, and every prediction has non-zero odds |
| ScraperService.ScrapeStatareaPredictions | apps/backend/src/modules/scraper/services/scraperService.ts:65-212 | the scrape computes the specified predictions |
| ScraperService.StatareaUsesParsedRows | apps/backend/src/modules/scraper/services/scraperService.ts:140-177 | a page with a parseable row yields exactly its rows' predictions; the fixed fallbacks appear only otherwise |
| ScraperService.ParsedRowsNonEmpty | apps/backend/src/modules/scraper/services/scraperService.ts:141 | one parseable row makes the parsed list non-empty |
| ScraperService.FindPrediction | apps/backend/src/modules/scraper/services/scraperService.ts:299-301 | some prediction exactly when one matches both teams, and then the first |
| ScraperService.FirstPredictionIndex | apps/backend/src/modules/scraper/services/scraperService.ts:299-301 | the index of the first prediction for the fixture, or the length |
| ScraperService.FindOdds | apps/backend/src/modules/scraper/services/scraperService.ts:304-306 | some odds entry exactly when one matches both teams, and then the first that does |
| ScraperService.FirstOddsIndex | apps/backend/src/modules/scraper/services/scraperService.ts:304-306 | the index of the first odds entry for the fixture, or the length |
| ScraperService.PriceOr | apps/backend/src/modules/scraper/services/scraperService.ts:320-321 | a missing odds entry gives the price 2.0 |
| ScraperService.PredictionFallback | apps/backend/src/modules/scraper/services/scraperService.ts:293-340 | a matching prediction is passed on with confidence / 100 and source "statarea"; otherwise the rule-based answer predicts home exactly when the home price is below the away price, with confidence 0.5 and probabilities summing to 1; the odds are those matched |
| ScraperService.RuleBasedWithoutOdds | apps/backend/src/modules/scraper/services/scraperService.ts:319-333 | the rule-based answer with no odds for the fixture (2.0 against 2.0) predicts away |
| ScraperService.HasOddsIff | apps/backend/src/modules/scraper/services/scraperService.ts:358-360 | a prediction has odds exactly when some odds entry has its fixture |
| ScraperService.DerivedEntry | apps/backend/src/modules/scraper/services/scraperService.ts:363-376 | a derived entry keeps the fixture and date, with home = the prediction's odds or 2.0, draw 3.0 and away = odds + 0.5 or 2.5 |
| ScraperService.Combined | apps/backend/src/modules/scraper/services/scraperService.ts:354-378 | the combined list starts with all the odds entries and adds at most one entry per prediction |
| ScraperService.CombineScraped | apps/backend/src/modules/scraper/services/scraperService.ts:354-378 | the combining loop computes the specified list |
| ScraperService.CombinedCovers | apps/backend/src/modules/scraper/services/scraperService.ts:354-378 | every prediction's fixture appears in the combined list |
| ScraperService.CombinedDerived | apps/backend/src/modules/scraper/services/scraperService.ts:357-377 | every entry after the odds entries is derived from a prediction whose fixture has no odds |
| ScraperService.FindNear | apps/backend/src/modules/scraper/services/scraperService.ts:381-388 | the earliest stored match of the fixture within an hour of the entry's date, or none when no stored match is |
| ScraperService.SaveCounts | apps/backend/src/modules/scraper/services/scraperService.ts:380-404 | every entry is saved or updated, each save adds one match, and the stored fixtures are kept |
| ScraperService.SaveCovers | apps/backend/src/modules/scraper/services/scraperService.ts:380-404 | after the loop every entry finds a stored match for its fixture |
| ScraperService.MatchStore.constructor | apps/backend/src/modules/scraper/services/scraperService.ts:4 | the match collection starts as given |
| ScraperService.MatchStore.SaveAll | apps/backend/src/modules/scraper/services/scraperService.ts:380-404 | the save loop computes the specified store and counters |
| ScraperService.SaveScrapedMatches | apps/backend/src/modules/scraper/services/scraperService.ts:345-429 | both scrapes, the combining step and the save loop, with the counters, the total processed and both source counts reported |
| ScraperService.WaitTime | apps/backend/src/modules/scraper/services/scraperService.ts:14-21 | the sleep is non-negative and restores the 2000 ms gap since the last request |
| ScraperService.WaitTimeLeast | apps/backend/src/modules/scraper/services/scraperService.ts:18-20 | no shorter sleep would restore the gap |
| ScraperService.RateLimiter.constructor | apps/backend/src/modules/scraper/services/scraperService.ts:11 | the last request time starts at 0 |
| ScraperService.RateLimiter.Wait | apps/backend/src/modules/scraper/services/scraperService.ts:14-24 | successive completions are at least 2000 ms apart |
| ScraperService.ScrapeWithRetry | apps/backend/src/modules/scraper/services/scraperService.ts:32-56 | the loop's result and attempt count are the specified retry, and the backoff slept is 1000·(i+1) summed over the failed attempts |
| ScraperService.RetryOutcome | apps/backend/src/modules/scraper/services/scraperService.ts:32-56 | success exactly when one of the first retries attempts succeeds, returning the first success; after all fail the last error is rethrown; with no attempts allowed "Max retries exceeded" |
| ScraperService.AttemptsBound | apps/backend/src/modules/scraper/services/scraperService.ts:33 | never more than retries attempts |
| PaymentRoutes.Status | apps/backend/src/routes/payment.ts:70-152 | a rejection is a 400 exactly for missing fields, and a 403 otherwise |
| PaymentRoutes.CategoryLimit | apps/backend/src/routes/payment.ts:83-91 | a minor's category limit is one of 20, 30, 40, 50 or the default 25, never above the minor cap of 50 |
| PaymentRoutes.CategoryLimitAsWritten | apps/backend/src/routes/payment.ts:91 | as written, an inherited property name such as "toString" yields no numeric limit; every other type gets its table limit or the default |
| PaymentRoutes.KidsMode | apps/backend/src/routes/payment.ts:36-138 | kids mode is on exactly when the middleware flag is set or the query says "true" |
| PaymentRoutes.Process | apps/backend/src/routes/payment.ts:64-178 | a missing or zero amount or a missing type is rejected before any other check; an accepted payment echoes its type, amount and description with status "success" |
| PaymentRoutes.UnderThirteenRejected | apps/backend/src/routes/payment.ts:93-102 | a stated age under 13 is always rejected as underage, in both readings of the category table |
| PaymentRoutes.MinorWithoutConsentRejected | apps/backend/src/routes/payment.ts:105-113 | ages 13-17 without parental consent are rejected |
| PaymentRoutes.MinorAcceptedWithinLimits | apps/backend/src/routes/payment.ts:93-134 | an accepted payment by a stated minor has consent, an age of at least 13, and an amount within its category limit and the cap of 50 |
| PaymentRoutes.NoAgeNoLimits | apps/backend/src/routes/payment.ts:93 | without a stated age no age or limit check applies |
| PaymentRoutes.KidsModeBlocksGambling | apps/backend/src/routes/payment.ts:137-153 | kids mode never accepts a gambling payment ("bet"/"wager" in the type or "gambling" in the description, ignoring case), and makes no other difference |
| PaymentRoutes.InheritedNameSkipsCategoryLimit | apps/backend/src/routes/payment.ts:91-126 | as written, a 15-year-old with consent paying 40 under type "toString" is accepted, where the default limit of 25 should refuse it |
| PaymentRoutes.MinorAcceptedAsWrittenCapped | apps/backend/src/routes/payment.ts:116-123 | even as written, a minor's accepted payment stays within the cap of 50 |
| PaymentRoutes.LookupsAgreeOnOtherNames | apps/backend/src/routes/payment.ts:91 | both readings agree on every type that is not an inherited property name |
| PaymentRoutes.Transactions | apps/backend/src/routes/payment.ts:39-47 | the history unchanged outside kids mode; in kids mode an order-keeping selection with no gambling record |
| PaymentRoutes.KidsModeKeepsNonGambling | apps/backend/src/routes/payment.ts:40-46 | kids mode keeps exactly the non-gambling records |
| PaymentManager.ValidateAmount | archive/20251029_044024_full_backup/packages/shared/src/libs/utils/paymentManager.ts:435-437 | valid exactly for 0 < amount <= 10000 |
| PaymentManager.FeeRate | archive/20251029_044024_full_backup/packages/shared/src/libs/utils/paymentManager.ts:449-455 | 2% exactly for pi_network, 2.9% exactly for paypal and stripe, 3% exactly for anything else |
| PaymentManager.FeesBounded | archive/20251029_044024_full_backup/packages/shared/src/libs/utils/paymentManager.ts:448-456 | the fee on a non-negative amount lies between 0 and 3% of it |
| PaymentManager.FeesMonotone | archive/20251029_044024_full_backup/packages/shared/src/libs/utils/paymentManager.ts:448-456 | the fee grows with the amount |
| PaymentManager.EndDate | archive/20251029_044024_full_backup/packages/shared/src/libs/utils/paymentManager.ts:362 | the end date is 30 days after the start for a monthly and 365 days for a yearly interval |
| PaymentManager.PutKey | archive/20251029_044024_full_backup/packages/shared/src/libs/utils/paymentManager.ts:158-367 | Map.set keeps the insertion order: a new key goes last, and the keys stay distinct |
| PaymentManager.Manager.constructor | archive/20251029_044024_full_backup/packages/shared/src/libs/utils/paymentManager.ts:43-90 | Pi Network is always enabled, PayPal and Stripe only when configured; nothing is stored yet, as when the manager starts outside a browser (saved transactions and subscriptions are not restored) |
| PaymentManager.Manager.ProcessPayment | archive/20251029_044024_full_backup/packages/shared/src/libs/utils/paymentManager.ts:127-176 | a missing or disabled provider fails at once with "Payment provider X not available"; an unknown one is unsupported; otherwise the provider's result is returned and stored under its id only when successful with a transaction id |
| PaymentManager.Manager.CreateSubscription | archive/20251029_044024_full_backup/packages/shared/src/libs/utils/paymentManager.ts:350-371 | a new active subscription with id "sub_<now>_<user>" and the interval's end date is stored; nothing else changes |
| PaymentManager.Manager.CancelSubscription | archive/20251029_044024_full_backup/packages/shared/src/libs/utils/paymentManager.ts:380-389 | false with no change for an unknown id; otherwise only that subscription's status becomes cancelled |
| PaymentManager.Manager.GetUserSubscriptions | archive/20251029_044024_full_backup/packages/shared/src/libs/utils/paymentManager.ts:374-377 | exactly the user's subscriptions, in creation order (a subsequence of all subscriptions in the order they were stored) |
| PaymentManager.History | archive/20251029_044024_full_backup/packages/shared/src/libs/utils/paymentManager.ts:392-397 | only the user's stored transactions, newest first, min(limit, the user's count) of them, none more often than stored, and no left-out transaction of the user newer than a returned one |
| PaymentManager.Manager.GetTransactionHistory | archive/20251029_044024_full_backup/packages/shared/src/libs/utils/paymentManager.ts:392-397 | on the manager's own store: only the user's stored transactions, newest first, min(limit, the user's count) of them, none more often than stored, and no left-out transaction of the user newer than a returned one |
| PaymentManager.Manager.GetAvailableProviders | archive/20251029_044024_full_backup/packages/shared/src/libs/utils/paymentManager.ts:430-432 | exactly the enabled providers, in table order (a subsequence of the providers in the order they were set up) |
| Coppa.OrNull | apps/backend/src/routes/coppa.ts:29 | `x \|\| null` keeps a non-empty address and gives null otherwise |
| Coppa.OrElse | apps/backend/src/routes/coppa.ts:69 | `x \|\| y`: the first value when it is non-empty, the second otherwise |
| Coppa.Requested | apps/backend/src/routes/coppa.ts:21-34 | the request upsert sets the age, the under-13 flag (age below 13), kids mode and a pending consent with the parent address and request time, and keeps the audit trail and the restriction flag of an existing user; a new user starts with an empty trail, unrestricted |
| Coppa.Verified | apps/backend/src/routes/coppa.ts:65-98 | verification replaces the consent record: approved or rejected by the parent's answer, with the time, the stored parent address and the old trail plus one entry; approval also turns kids mode on, and nothing else about the user changes |
| Coppa.RevokedUser | apps/backend/src/routes/coppa.ts:124-141 | revoking marks the consent revoked with the time, appends one entry, keeps every other consent field and restricts the account in kids mode |
| Coppa.Export | apps/backend/src/routes/coppa.ts:170-183 | the exported record carries the child's address and age, the stored consent status, parent address and full audit trail, and the export time |
| Coppa.ConsentStore.constructor | apps/backend/src/routes/coppa.ts:58 | the store starts with the given users, each filed under its own address |
| Coppa.ConsentStore.RequestConsent | apps/backend/src/routes/coppa.ts:15-41 | a missing child address or a missing or zero age is a 400 that changes nothing; otherwise the child's record becomes the request upsert of the old one |
| Coppa.ConsentStore.VerifyConsent | apps/backend/src/routes/coppa.ts:46-105 | a missing address or token is a 400, an unknown child a 404, both changing nothing; otherwise the record becomes the verified one, the audit entry naming the method (email_link by default) and the given parent identity or the stored parent address, and the reply says whether consent was given |
| Coppa.ConsentStore.RevokeConsent | apps/backend/src/routes/coppa.ts:110-149 | 400 for a missing address, 404 for an unknown child, 403 when the parent address differs from the stored one, none changing anything; otherwise the child is revoked with an entry giving the reason or the default reason |
| Coppa.ConsentStore.ExportConsent | apps/backend/src/routes/coppa.ts:154-189 | 400 without a parent address, 404 for an unknown child; the record is returned exactly when the parent address matches the stored one |
| Coppa.AuditTrailOnlyGrows | apps/backend/src/routes/coppa.ts:81-136 | request keeps the trail, and verify and revoke keep every earlier entry as a prefix, verify adding exactly one |
| Coppa.RevokeAndExportShareTheCheck | apps/backend/src/routes/coppa.ts:120-166 | revoke and export admit exactly the parent whose address is the stored one |
| Coppa.RequestAfterRevokeStaysRestricted | apps/backend/src/routes/coppa.ts:21-141 | a request after a revoke sets the consent back to pending but leaves the account restricted and the revoke time in place |
| Coppa.ApprovalDropsRequestTime | apps/backend/src/routes/coppa.ts:75-82 | the approved record has no request time and no revoke time, since verification writes a fresh sub-document |
| AuthController.Under | apps/backend/src/modules/auth/controllers/authController.ts:38-39 | `age ? age < limit : false`: under the limit exactly for a present, non-zero age below it |
| AuthController.Under13IsMinor | apps/backend/src/modules/auth/controllers/authController.ts:38-39 | under 13 implies minor, and no age or age 0 is neither |
| AuthController.NewAccount | apps/backend/src/modules/auth/controllers/authController.ts:42-57 | the new account is a minor for an age below 18, may bet exactly when not a minor, may pay exactly when not under 13, and has an ungranted consent placeholder exactly when under 13 |
| AuthController.ChildRestrictions | apps/backend/src/modules/auth/controllers/authController.ts:48-51 | under 13 may neither bet nor pay; 13 to 17 may pay but not bet; adults may do both |
| AuthController.Directory.constructor | apps/backend/src/modules/auth/controllers/authController.ts:29 | the user collection starts empty |
| AuthController.Directory.Register | apps/backend/src/modules/auth/controllers/authController.ts:19-86 | 400 when a username, e-mail or password is missing, 409 for a known address, both changing nothing; otherwise the new account is stored under its address and id, and the reply carries the minor flags and the tokens' claims |
| AuthController.Directory.Login | apps/backend/src/modules/auth/controllers/authController.ts:88-138 | 400 for missing credentials; an unknown address and a wrong password both get the same 401; a correct login only updates the last-active time and returns the claims with the user's role, or "user" when there is none |
| AuthController.Directory.FindById | apps/backend/src/modules/auth/controllers/authController.ts:151-185 | finds the account with the id, and finds none exactly when no stored account has it |
| AuthController.Directory.RefreshToken | apps/backend/src/modules/auth/controllers/authController.ts:140-171 | 400 without a token, 401 when the token does not verify; a new access token is issued exactly when the token's user exists, and it names that user |
| AuthController.Directory.GetProfile | apps/backend/src/modules/auth/controllers/authController.ts:179-208 | 401 without an authenticated user, 404 for an unknown id, and otherwise the stored account's fields without the password hash |
| AuthController.Logout | apps/backend/src/modules/auth/controllers/authController.ts:173-177 | logout always succeeds |
| HealthMonitor.Doubled | apps/web/src/lib/services/healthMonitor.ts:89-92 | the doubled backoff never passes the 60-second cap, equals twice the delay below it, and stays within [5000, 60000] ms |
| HealthMonitor.Checked | apps/web/src/lib/services/healthMonitor.ts:77-116 | after a check the service is healthy exactly when the response was ok; success clears the failure count, resets the backoff and records the success time; failure (a bad status or a thrown fetch) adds one failure and doubles the backoff |
| HealthMonitor.Failures | apps/web/src/lib/services/healthMonitor.ts:88-112 | k failed checks add k to the failure count |
| HealthMonitor.OneEventPerStreak | apps/web/src/lib/services/healthMonitor.ts:95-120 | a failure streak that starts healthy raises the unhealthy event exactly once if it reaches five failures and never otherwise |
| HealthMonitor.BackoffAfterFailures | apps/web/src/lib/services/healthMonitor.ts:18-92 | from the base delay, k failures give 5000 * 2^k ms, capped at 60000 from the fourth failure on |
| HealthMonitor.SuccessRestores | apps/web/src/lib/services/healthMonitor.ts:83-86 | one success after any failure streak makes the record healthy with no failures, the base backoff and no backoff wait |
| HealthMonitor.Monitor.constructor | apps/web/src/lib/services/healthMonitor.ts:21-49 | in a browser the API and predictions services are registered, healthy, with the base backoff and URLs built from the page origin; outside one nothing is registered |
| HealthMonitor.Monitor.CheckHealth | apps/web/src/lib/services/healthMonitor.ts:51-124 | an unknown service answers unhealthy and changes nothing; a failed service still inside its backoff answers its stored health without a check; otherwise the record becomes the checked one, stamped with the clock read after the fetch while the backoff test uses the reading before it, and the event is dispatched when the failure count has just reached five in a browser |
| HealthMonitor.Monitor.StartMonitoring | apps/web/src/lib/services/healthMonitor.ts:136-139 | starting sets the flag only in a browser and when not yet monitoring; the records are untouched |
| HealthMonitor.Monitor.StopMonitoring | apps/web/src/lib/services/healthMonitor.ts:179-185 | stopping clears the flag and nothing else |
| HealthMonitor.Monitor.IsHealthy | apps/web/src/lib/services/healthMonitor.ts:195-197 | healthy exactly when no service is both down and at five failures or more |
| HealthMonitor.Monitor.GetServiceStatus | apps/web/src/lib/services/healthMonitor.ts:187-189 | the stored record of a registered service, and none for any other name |
| HealthMonitor.Monitor.GetAllStatuses | apps/web/src/lib/services/healthMonitor.ts:191-193 | one record per registered service, in registration order, every stored record included |
| ErrorRecovery.FindStrategy | apps/web/src/lib/services/errorRecoveryService.ts:98 | the first strategy whose pattern matches the message, and none exactly when no pattern matches |
| ErrorRecovery.ErrorKey | apps/web/src/lib/services/errorRecoveryService.ts:88 | the ledger key is the message's first 50 characters, the whole message when shorter |
| ErrorRecovery.SharedPrefixSharesKey | apps/web/src/lib/services/errorRecoveryService.ts:88 | two messages with the same first 50 characters share one retry count |
| ErrorRecovery.PutKey | apps/web/src/lib/services/errorRecoveryService.ts:114-119 | `Map.set` keeps the listed keys and adds the new one |
| ErrorRecovery.RemoveKey | apps/web/src/lib/services/errorRecoveryService.ts:111 | `Map.delete` drops exactly the given key |
| ErrorRecovery.AvailableOf | apps/web/src/lib/services/errorRecoveryService.ts:128-131 | one description and priority per strategy, in order |
| ErrorRecovery.Entries | apps/web/src/lib/services/errorRecoveryService.ts:127 | the ledger's entries in insertion order, each key with its retry count |
| ErrorRecovery.Service.constructor | apps/web/src/lib/services/errorRecoveryService.ts:14-84 | the service starts with the five strategies and an empty ledger |
| ErrorRecovery.Service.AttemptRecovery | apps/web/src/lib/services/errorRecoveryService.ts:86-122 | a key with three retries, or a message no strategy matches, fails and changes nothing; a successful recovery succeeds and deletes the key; a recovery that returns false or throws fails and records one more retry; the ledger never holds more than three retries for a key |
| ErrorRecovery.Service.GetRecoveryStatus | apps/web/src/lib/services/errorRecoveryService.ts:124-133 | the status counts the strategies, lists the ledger entries in insertion order and lists every strategy's description and priority |
| ErrorRecovery.NetworkErrorPicksFirst | apps/web/src/lib/services/errorRecoveryService.ts:21-98 | "Network error" is claimed by the network reconnection strategy, the first one |
| ErrorRecovery.LowerNetworkError | apps/web/src/lib/services/errorRecoveryService.ts:21 | `/.../i` compares case-insensitively: "Network error" reads as "network error" |
| ErrorRecovery.NetworkErrorMatches | apps/web/src/lib/services/errorRecoveryService.ts:21 | "network error" matches the alternative `network.*error` |
| MlApi.Admit | apps/api/ml/api.py:44-53 | a client without a window, or with one older than 60 s, gets a new window of one request; inside the window a request passes exactly while fewer than 100 have, and each passing one is counted |
| MlApi.WindowCap | apps/api/ml/api.py:44-53 | inside one window exactly min(requests, 100 - count) further requests pass, and the count never passes 100 |
| MlApi.FreshWindowCap | apps/api/ml/api.py:51-53 | at most 100 requests pass in a fresh window before it ends |
| MlApi.Percentages | apps/api/ml/api.py:146 | every probability is scaled by 100, with the same keys |
| MlApi.Respond | apps/api/ml/api.py:143-150 | the response carries the prediction and version, the confidence and probabilities as percentages, and the request's features and match context |
| MlApi.ScaledIntoPercent | apps/api/ml/api.py:145-146 | confidences and probabilities in [0, 1] come out in [0, 100] |
| MlApi.FirstFailure | apps/api/ml/api.py:159-162 | the first request of a batch on which the predictor fails, with every earlier one passing; none exactly when all pass |
| MlApi.FirstFailureAt | apps/api/ml/api.py:159-162 | a failing request with only passing ones before it is the batch's first failure |
| MlApi.Service.constructor | apps/api/ml/api.py:41-131 | the rate-limit table and the cache start empty |
| MlApi.Service.RateLimit | apps/api/ml/api.py:36-56 | the client's window becomes the admitted one, the request passes exactly when admitted, and the cache is untouched |
| MlApi.Service.Predict | apps/api/ml/api.py:77-155 | a request without exactly seven features is a 422; a cache entry younger than 300 s is marked cached in the cache and its stored response, without the mark, is returned; otherwise a predictor error is a 400 and a result is scaled, stored unmarked with the time and returned |
| MlApi.BatchPredict | apps/api/ml/api.py:157-178 | any request without seven features makes the batch a 422; otherwise the first failure's message is a 400, and with none there is one scaled item per request, in order |
| MlApi.CacheIgnoresContext | apps/api/ml/api.py:128-137 | the cache key is the features alone: a second request with other match context within five minutes is served the first request's context |
| PredictionController.FallbackData | apps/api/src/modules/predictions/controllers/predictionController.ts:82-99 | the rule-based answer predicts home exactly when the first feature exceeds the second, at confidence 60, version rule-based-v1, with probabilities 55/20/25 in the predicted side's favour that sum to 100 |
| PredictionController.MlPredict | apps/api/src/modules/predictions/controllers/predictionController.ts:48-101 | missing features, or fewer than seven, are a 400 before any call; an ok service answer is passed on with source ml; a failed or throwing call gets the rule-based answer |
| PredictionController.BatchPredict | apps/api/src/modules/predictions/controllers/predictionController.ts:103-124 | the service's batch answer is passed on as it is, and any failure is a 500 |
| PredictionController.MlStatus | apps/api/src/modules/predictions/controllers/predictionController.ts:126-146 | operational and online exactly when the health route answers ok, degraded and offline when it answers otherwise, and a 503 error when the call throws |
| PredictionController.ExtraFeaturesFallBack | apps/api/src/modules/predictions/controllers/predictionController.ts:52-65 | the route lets more than seven features through, but the ML service refuses them, so the answer is always the fallback |
| PredictionController.SevenFeaturesUseModel | apps/api/src/modules/predictions/controllers/predictionController.ts:57-78 | with exactly seven features and a working predictor the route passes on the model's answer, its confidence as a percentage |
| MlPredictionService.SafeFetch | apps/api/src/modules/predictions/services/mlPredictionService.ts:19-50 | the loop's result is the specification's: it attempts in order up to the retry count, and pauses 3000*(i+1) ms after each failed attempt but the last allowed one |
| MlPredictionService.FetchSucceedsIff | apps/api/src/modules/predictions/services/mlPredictionService.ts:26-41 | the fetch succeeds exactly when one of the allowed attempts is answered ok |
| MlPredictionService.FetchFirstAnswer | apps/api/src/modules/predictions/services/mlPredictionService.ts:26-41 | a successful fetch returns the first ok answer, all attempts before it having failed |
| MlPredictionService.FetchExhausted | apps/api/src/modules/predictions/services/mlPredictionService.ts:42-49 | when every attempt fails, all of them are made and the error names the retry count and the last failure's message |
| MlPredictionService.BadStatusIsFailure | apps/api/src/modules/predictions/services/mlPredictionService.ts:37-39 | a non-ok status is a failed attempt whose message is "ML service returned <status>" |
| MlPredictionService.Fallback | apps/api/src/modules/predictions/services/mlPredictionService.ts:64-69 | the fallback predicts home exactly when the first feature exceeds the second, at confidence 0.6 and version rule-based-v1, without probabilities |
| MlPredictionService.PredictMatch | apps/api/src/modules/predictions/services/mlPredictionService.ts:53-71 | predictMatch never fails: the fetched answer, or the fallback |
| MlPredictionService.BatchPredict | apps/api/src/modules/predictions/services/mlPredictionService.ts:73-90 | the fetched batch, or one fallback per request, in the same order |
| MlPredictionService.FallbackAll | apps/api/src/modules/predictions/services/mlPredictionService.ts:84-88 | the batch fallback keeps the length and order of the requests |
| MlPredictionService.TieGoesAway | apps/api/src/modules/predictions/services/mlPredictionService.ts:64 | a tie, or a lower home value, predicts away |
| SportsDataService.Expiry | apps/frontend/src/app/services/sportsDataService.ts:68-73 | the expiry is now plus the ttl in seconds times 1000, so a positive ttl lies in the future |
| SportsDataService.LiveForTtl | apps/frontend/src/app/services/sportsDataService.ts:61-73 | an entry set with a positive ttl is served until exactly ttl seconds have passed |
| SportsDataService.Service.constructor | apps/frontend/src/app/services/sportsDataService.ts:53-56 | the cache starts empty |
| SportsDataService.Service.GetCached | apps/frontend/src/app/services/sportsDataService.ts:59-66 | the stored data exactly while now is before the expiry; otherwise nothing, and the key is removed |
| SportsDataService.Service.SetCache | apps/frontend/src/app/services/sportsDataService.ts:68-73 | the key now holds the data with its expiry, and nothing else changes |
| SportsDataService.Service.CachedFetch | apps/frontend/src/app/services/sportsDataService.ts:76-146 | a live entry is served unchanged; otherwise an ok body is cached and served; a failed or throwing call serves the mock and caches nothing, the stale key gone |
| SportsDataService.Service.GetLiveMatches | apps/frontend/src/app/services/sportsDataService.ts:76-95 | the shared flow under live-matches with a 30-second ttl: a live entry is served and the cache unchanged; otherwise a fetched answer is served and cached with the ttl, and without one the mock is served and the key is dropped from the cache, nothing else changing |
| SportsDataService.Service.GetPrediction | apps/frontend/src/app/services/sportsDataService.ts:98-124 | the shared flow under prediction-<match id> with a ten-minute ttl: a live entry is served and the cache unchanged; otherwise a fetched answer is served and cached with the ttl, and without one the mock is served and the key is dropped from the cache, nothing else changing |
| SportsDataService.Service.GetAnalytics | apps/frontend/src/app/services/sportsDataService.ts:127-146 | the shared flow under analytics-<timeframe> with a five-minute ttl: a live entry is served and the cache unchanged; otherwise a fetched answer is served and cached with the ttl, and without one the mock is served and the key is dropped from the cache, nothing else changing |
| SportsDataService.Raw | apps/frontend/src/app/services/sportsDataService.ts:244-251 | home and away probabilities are the strength shares clamped to [0.2, 0.7], and the draw is the rest but at least 0.1 |
| SportsDataService.Percent | apps/frontend/src/app/services/sportsDataService.ts:256-258 | a normalised probability rounds to a whole percentage in [0, 100] |
| SportsDataService.DivBounds | apps/frontend/src/app/services/sportsDataService.ts:256-258 | a part over a positive whole lies in [0, 1] |
| SportsDataService.Label | apps/frontend/src/app/services/sportsDataService.ts:261-263 | home only when its percentage beats both others, away only when it is at least home's and beats the draw, and the draw otherwise |
| SportsDataService.LabelIsLargest | apps/frontend/src/app/services/sportsDataService.ts:261-265 | the label always names a largest percentage |
| SportsDataService.MockPredictionOf | apps/frontend/src/app/services/sportsDataService.ts:242-278 | the mock's probabilities lie in [0, 1], its confidence is the predicted side's probability and no smaller than any other, ties break as the code's comparisons do, and the version is MagajiCo-ML-v2.1.3 |
| EnhancedSportsDataService.Lookup | apps/frontend/src/app/services/enhancedSportsDataService.ts:163-170 | a hit exactly while the expiry is after now, returning the data with the cache unchanged; a miss removes the key and keeps every other entry |
| EnhancedSportsDataService.Stored | apps/frontend/src/app/services/enhancedSportsDataService.ts:172-177 | the key holds the data with expiry now plus the ttl in milliseconds, every other entry kept |
| EnhancedSportsDataService.StoredServedForTtl | apps/frontend/src/app/services/enhancedSportsDataService.ts:165-177 | a stored entry is served for exactly ttl milliseconds |
| EnhancedSportsDataService.IndexOf | apps/frontend/src/app/services/enhancedSportsDataService.ts:129 | `indexOf`: the first position holding the callback, or -1 exactly when it is absent |
| EnhancedSportsDataService.IndexOfIsFirst | apps/frontend/src/app/services/enhancedSportsDataService.ts:129 | a position holding the callback with none before it is the answer of `indexOf` |
| EnhancedSportsDataService.Subscribed | apps/frontend/src/app/services/enhancedSportsDataService.ts:119-124 | the callback is appended to its event's list, the list created when missing, and other events are untouched |
| EnhancedSportsDataService.Unsubscribed | apps/frontend/src/app/services/enhancedSportsDataService.ts:126-134 | only the first copy of the callback is spliced out; an unknown event or callback changes nothing |
| EnhancedSportsDataService.UnsubscribeDropsOneCopy | apps/frontend/src/app/services/enhancedSportsDataService.ts:129-131 | unsubscribing removes exactly one copy and shortens the list by one |
| EnhancedSportsDataService.SubscribeThenUnsubscribe | apps/frontend/src/app/services/enhancedSportsDataService.ts:119-134 | subscribe then unsubscribe restores a list the callback was not in; when it was already there, the earlier copy goes and the new one stays last |
| EnhancedSportsDataService.Service.constructor | apps/frontend/src/app/services/enhancedSportsDataService.ts:17-19 | the cache and the subscriber table start empty |
| EnhancedSportsDataService.Service.GetFromCache | apps/frontend/src/app/services/enhancedSportsDataService.ts:163-170 | the answer and the new cache are the lookup's |
| EnhancedSportsDataService.Service.SetCache | apps/frontend/src/app/services/enhancedSportsDataService.ts:172-177 | the new cache is the stored one; subscribers are untouched |
| EnhancedSportsDataService.Service.CachedFetch | apps/frontend/src/app/services/enhancedSportsDataService.ts:60-104 | a hit is served; otherwise the kept part of an ok response is cached and served; a failure serves the mock and leaves the key out of the cache |
| EnhancedSportsDataService.Service.GetLiveMatches | apps/frontend/src/app/services/enhancedSportsDataService.ts:60-82 | the flow under live_matches with a 30 000 ms ttl, caching `data.matches` |
| EnhancedSportsDataService.Service.GetMarketData | apps/frontend/src/app/services/enhancedSportsDataService.ts:84-104 | the flow under market_data with a 60 000 ms ttl, caching the whole body |
| EnhancedSportsDataService.Service.Subscribe | apps/frontend/src/app/services/enhancedSportsDataService.ts:119-124 | the table becomes the subscribed one; the cache is untouched |
| EnhancedSportsDataService.Service.Unsubscribe | apps/frontend/src/app/services/enhancedSportsDataService.ts:126-134 | the table becomes the unsubscribed one; the cache is untouched |
| EnhancedSportsDataService.Service.NotifySubscribers | apps/frontend/src/app/services/enhancedSportsDataService.ts:136-141 | the event's callbacks are called in subscription order, and none for an unknown event |
| EnhancedSportsDataService.Service.Destroy | apps/frontend/src/app/services/enhancedSportsDataService.ts:299-305 | the cache and the subscriber table are emptied |
| EnhancedSportsDataService.CeoAnalytics | apps/frontend/src/app/services/enhancedSportsDataService.ts:106-117 | the CEO analytics are an ok body or the mock, never cached |
| SmartNotifications.Granted | archive/20251029_044024_full_backup/frontend/src/app/components/SmartNotifications.tsx:87-98 | granting permission turns push and all five notification kinds on, keeping the quiet hours |
| SmartNotifications.Added | archive/20251029_044024_full_backup/frontend/src/app/components/SmartNotifications.tsx:103-111 | the new notification, unread and stamped now, heads the list, followed by at most 49 of the previous ones in order, so at most 50 are kept |
| SmartNotifications.MarkedAsRead | archive/20251029_044024_full_backup/frontend/src/app/components/SmartNotifications.tsx:188-191 | the notifications with that id become read and nothing else changes or moves |
| SmartNotifications.MarkedAllAsRead | archive/20251029_044024_full_backup/frontend/src/app/components/SmartNotifications.tsx:196-197 | every notification becomes read, in place |
| SmartNotifications.Deleted | archive/20251029_044024_full_backup/frontend/src/app/components/SmartNotifications.tsx:202-203 | exactly the notifications with another id remain, in order, and the list shrinks by the number with that id |
| SmartNotifications.MarkAllClearsUnread | archive/20251029_044024_full_backup/frontend/src/app/components/SmartNotifications.tsx:196-222 | after marking all as read the unread count is 0 |
| SmartNotifications.MarkAsReadCount | archive/20251029_044024_full_backup/frontend/src/app/components/SmartNotifications.tsx:188-222 | marking one id as read lowers the unread count by exactly the unread notifications with that id |
| SmartNotifications.AddedUnread | archive/20251029_044024_full_backup/frontend/src/app/components/SmartNotifications.tsx:111-222 | adding to a list of fewer than 50 raises the unread count by one |
| SmartNotifications.PushOffShowsNothing | archive/20251029_044024_full_backup/frontend/src/app/components/SmartNotifications.tsx:121-122 | with push off no notification is shown |
| SmartNotifications.KindGate | archive/20251029_044024_full_backup/frontend/src/app/components/SmartNotifications.tsx:138-145 | outside quiet hours with push on, each kind is shown exactly when its switch is on, and reminders always |
| SmartNotifications.TwoDigitOrder | archive/20251029_044024_full_backup/frontend/src/app/components/SmartNotifications.tsx:127 | a zero-padded two-digit prefix decides the string order unless the numbers are equal |
| SmartNotifications.ClockOrder | archive/20251029_044024_full_backup/frontend/src/app/components/SmartNotifications.tsx:127-135 | for well-formed times, comparing the padded "HH:MM" strings is comparing the times of day |
| SmartNotifications.QuietHoursByMinutes | archive/20251029_044024_full_backup/frontend/src/app/components/SmartNotifications.tsx:125-136 | quiet hours block exactly the minutes from start to end inclusive, wrapping past midnight when the start is later than the end |
| SmartNotifications.Panel.constructor | archive/20251029_044024_full_backup/frontend/src/app/components/SmartNotifications.tsx:32-45 | the panel starts with no notifications and the default settings, all switched off with quiet hours 22:00 to 08:00 |
| SmartNotifications.Panel.Load | archive/20251029_044024_full_backup/frontend/src/app/components/SmartNotifications.tsx:69-77 | loading takes the stored notifications and settings |
| SmartNotifications.Panel.RequestPermission | archive/20251029_044024_full_backup/frontend/src/app/components/SmartNotifications.tsx:84-101 | only an undecided, supporting browser that grants permission changes and saves the settings, to the granted ones |
| SmartNotifications.Panel.AddNotification | archive/20251029_044024_full_backup/frontend/src/app/components/SmartNotifications.tsx:103-119 | the list becomes the added one and is saved; the browser shows the new notification exactly when permission is granted and the settings let it through at that time |
| SmartNotifications.Panel.CheckForNewNotifications | archive/20251029_044024_full_backup/frontend/src/app/components/SmartNotifications.tsx:160-186 | with the daily digest on, at 9 and at 18 o'clock a medium-priority reminder heads the list; at any other time, or with the digest off, nothing changes |
| SmartNotifications.Panel.MarkAsRead | archive/20251029_044024_full_backup/frontend/src/app/components/SmartNotifications.tsx:188-194 | the list becomes the marked one and is saved; settings are untouched |
| SmartNotifications.Panel.MarkAllAsRead | archive/20251029_044024_full_backup/frontend/src/app/components/SmartNotifications.tsx:196-200 | the list becomes all read and is saved, leaving no unread notification |
| SmartNotifications.Panel.DeleteNotification | archive/20251029_044024_full_backup/frontend/src/app/components/SmartNotifications.tsx:202-206 | the list becomes the filtered one and is saved |
| SmartNotifications.Panel.ClearAllNotifications | archive/20251029_044024_full_backup/frontend/src/app/components/SmartNotifications.tsx:208-211 | the list and its stored copy become empty |
| PredictionStreak.NewestFirst | apps/web/src/components/PredictionStreak.tsx:22-24 | the sorted list is a permutation of the fetched one, ordered newest first |
| PredictionStreak.Streaks | apps/web/src/components/PredictionStreak.tsx:26-40 | the loop's final counter is the run of correct predictions after the last wrong one it walked over, and its maximum is the best run; the final counter never exceeds the maximum |
| PredictionStreak.TrailingRunIsLastStretch | apps/web/src/components/PredictionStreak.tsx:30-40 | the final counter is at least the correct predictions of any stretch without a wrong one that reaches the end of the walk |
| PredictionStreak.TrailingRunAttained | apps/web/src/components/PredictionStreak.tsx:30-40 | and one such stretch gives it exactly |
| PredictionStreak.BestBoundsEveryRun | apps/web/src/components/PredictionStreak.tsx:31-33 | the best streak bounds the correct predictions of every stretch without a wrong one |
| PredictionStreak.BestIsAttained | apps/web/src/components/PredictionStreak.tsx:31-33 | and one such stretch reaches it |
| PredictionStreak.UnsettledChangesNothing | apps/web/src/components/PredictionStreak.tsx:31-39 | a prediction that is neither true nor false changes neither counter |
| PredictionStreak.ShownStreakIsOldestRun | apps/web/src/components/PredictionStreak.tsx:22-42 | as written, with a correct newest prediction after an older wrong one, the widget shows 0 where the current streak is 1 |
| PredictionStreak.LatestRunIsNewestStretch | apps/web/src/components/PredictionStreak.tsx:35-42 | the latest run counts exactly the correct predictions before the newest wrong one, or all of them when none is wrong |
| PredictionStreak.LatestRunAtMostBest | apps/web/src/components/PredictionStreak.tsx:33-43 | the current streak never exceeds the best one |
| PredictionStreak.NewestMiss | apps/web/src/components/PredictionStreak.tsx:34 | the position of the newest wrong prediction, or the length when there is none; no wrong prediction comes before it |
| PredictionStreak.Widget.constructor | apps/web/src/components/PredictionStreak.tsx:11-13 | the widget starts at 0, 0 and loading |
| PredictionStreak.Widget.FetchStreak | apps/web/src/components/PredictionStreak.tsx:15-50 | a failed fetch or an answer without a list keeps both counters; otherwise the predictions are sorted newest first, the current streak becomes the latest run and the best streak the walk's maximum, never below it; loading always ends |
| ConfidenceCalibration.Actual | apps/web/src/components/ConfidenceCalibration.tsx:43-44 | the percentage of correct predictions in [0, 100], with actual times count equal to 100 times correct, and 0 for an empty bucket |
| ConfidenceCalibration.BucketOf | apps/web/src/components/ConfidenceCalibration.tsx:38-53 | a bucket entry has the range's label, its midpoint as the predicted value, the count of the settled predictions it takes, and the share of correct ones among them |
| ConfidenceCalibration.Buckets | apps/web/src/components/ConfidenceCalibration.tsx:27-53 | five entries in range order over the settled predictions, with midpoints 55 to 95 and each count that of the predictions its bucket takes |
| ConfidenceCalibration.BucketsDisjoint | apps/web/src/components/ConfidenceCalibration.tsx:39-41 | no prediction is counted in two buckets |
| ConfidenceCalibration.CountsAddUp | apps/web/src/components/ConfidenceCalibration.tsx:38-53 | the five counts add up to the predictions with a confidence some bucket takes |
| ConfidenceCalibration.TotalOfBuckets | apps/web/src/components/ConfidenceCalibration.tsx:28-53 | the buckets' total is the number of settled predictions with such a confidence: in [50, 100) as written, in [50, 100] with the last bucket closed |
| ConfidenceCalibration.StatusOf | apps/web/src/components/ConfidenceCalibration.tsx:88-90 | overconfident exactly when the actual share is more than 5 points below the predicted one, underconfident when more than 5 above, and well calibrated otherwise |
| ConfidenceCalibration.FullConfidenceDropped | apps/web/src/components/ConfidenceCalibration.tsx:35-41 | as written, a prediction of confidence 100 falls in no bucket, though the last is labelled 90-100%; the bucket closed at 100 takes it |
| ConfidenceCalibration.ExactlyOneBucket | apps/web/src/components/ConfidenceCalibration.tsx:30-41 | with the last bucket closed at 100, every confidence from 50 to 100 falls in exactly one bucket |
| DailyPredictionLimit.TodayCount | apps/web/src/components/DailyPredictionLimit.tsx:22-31 | the count of the fetched predictions whose creation date falls on the current local day |
| DailyPredictionLimit.SameDayWithinADay | apps/web/src/components/DailyPredictionLimit.tsx:22-28 | two instants on the same local day lie less than a day apart |
| DailyPredictionLimit.OtherDaysIgnored | apps/web/src/components/DailyPredictionLimit.tsx:25-29 | a prediction from another day, or without a valid date, does not change today's count |
| DailyPredictionLimit.Remaining | apps/web/src/components/DailyPredictionLimit.tsx:44 | what remains is never negative, is 0 exactly at or over the limit, and below it adds up with the count to the limit |
| DailyPredictionLimit.NearLimit | apps/web/src/components/DailyPredictionLimit.tsx:43-45 | near the limit exactly when the count is at least 80% of a positive limit; with a zero limit exactly when something was predicted, since the percentage is Infinity, or NaN for 0/0 |
| DailyPredictionLimit.BarWidth | apps/web/src/components/DailyPredictionLimit.tsx:83 | the bar width, the percentage capped at 100, is in [0, 100] for a positive limit, is the percentage below the limit and full at it, and is NaN only for 0 of 0 |
| DailyPredictionLimit.PercentageBounds | apps/web/src/components/DailyPredictionLimit.tsx:43 | for a positive limit the percentage is non-negative and reaches 100 exactly at the limit |
| DailyPredictionLimit.AtLimitIsNearLimit | apps/web/src/components/DailyPredictionLimit.tsx:44-46 | reaching a positive limit is also being near it, with nothing remaining |
| PredictionLeague.CorrectCount | apps/frontend/src/app/components/PredictionLeague.tsx:44 | the correct predictions never outnumber the predictions |
| PredictionLeague.WinRate | apps/frontend/src/app/components/PredictionLeague.tsx:46 | the win rate is the percentage of correct predictions, in [0, 100], and 0 without predictions |
| PredictionLeague.TierOf | apps/frontend/src/app/components/PredictionLeague.tsx:49-53 | Master from 80, Diamond from 70, Gold from 60, Silver from 50 and Bronze below, each tier exactly on its interval |
| PredictionLeague.TierMonotone | apps/frontend/src/app/components/PredictionLeague.tsx:49-53 | a higher win rate never gives a lower tier |
| PredictionLeague.Seasons | apps/frontend/src/app/components/PredictionLeague.tsx:57 | one season per 20 predictions, and at least one |
| PredictionLeague.OneDecimal | apps/frontend/src/app/components/PredictionLeague.tsx:60 | `Number(x.toFixed(1))`: the nearest tenth, within 0.05 |
| PredictionLeague.OneDecimalBounds | apps/frontend/src/app/components/PredictionLeague.tsx:60 | rounding a percentage to a tenth keeps it in [0, 100] |
| PredictionLeague.Stats | apps/frontend/src/app/components/PredictionLeague.tsx:42-61 | the stats carry the tier of the exact win rate, the seasons, the best rank max(1, floor(50 × draw)) in [1, 49], 10 Pi per correct prediction and the win rate rounded to a tenth, within 0.05 of the exact rate |
| PredictionLeague.ShownRateMayDisagreeWithTier | apps/frontend/src/app/components/PredictionLeague.tsx:46-60 | 1999 correct out of 2500 shows a win rate of 80.0 but a Diamond tier, because the tier uses the unrounded rate; the page never fetches that many |
| PredictionLeague.SameSideOfThreshold | apps/frontend/src/app/components/PredictionLeague.tsx:46-60 | below 200 predictions a win rate and its rounded form lie on the same side of every multiple of ten |
| PredictionLeague.NoRateJustBelowThreshold | apps/frontend/src/app/components/PredictionLeague.tsx:46 | below 200 predictions a win rate under a multiple of ten is at least 0.05 under it |
| PredictionLeague.PageTierAgreesWithShownRate | apps/frontend/src/app/components/PredictionLeague.tsx:39-60 | with at most the 100 predictions the page fetches, the tier always matches the rounded win rate shown |
| BlockchainVerification.ToInt32 | apps/web/src/app/components/BlockchainVerification.tsx:24-25 | ECMAScript's ToInt32: a 32-bit signed value congruent to the input modulo 2^32 |
| BlockchainVerification.ToInt32Congruent | apps/web/src/app/components/BlockchainVerification.tsx:24-25 | numbers congruent modulo 2^32 wrap to the same value |
| BlockchainVerification.ToInt32Identity | apps/web/src/app/components/BlockchainVerification.tsx:25 | `hash & hash` leaves a 32-bit value unchanged |
| BlockchainVerification.Step | apps/web/src/app/components/BlockchainVerification.tsx:23-25 | one round of the loop keeps a 32-bit signed value |
| BlockchainVerification.StepIsTimes31 | apps/web/src/app/components/BlockchainVerification.tsx:24-25 | a round computes hash * 31 + character code, wrapped to 32 bits |
| BlockchainVerification.Hash | apps/web/src/app/components/BlockchainVerification.tsx:21-26 | the string hash is a 32-bit signed value |
| BlockchainVerification.NextPrefix | apps/web/src/app/components/BlockchainVerification.tsx:22-26 | the hash of one more character is one more round |
| BlockchainVerification.RenderShape | apps/web/src/app/components/BlockchainVerification.tsx:27 | every rendered hash is "0x" followed by exactly 64 lower-case hex digits |
| BlockchainVerification.LeadingZeros | apps/web/src/app/components/BlockchainVerification.tsx:27 | the first 56 of the 64 digits are always zeros, as the hash has only 32 bits |
| BlockchainVerification.SignIsLost | apps/web/src/app/components/BlockchainVerification.tsx:27 | `Math.abs` gives a hash and its negation the same rendering |
| BlockchainVerification.EmptyHash | apps/web/src/app/components/BlockchainVerification.tsx:21-27 | the empty string hashes to 0, rendered as 64 zeros |
| BlockchainVerification.GenerateBlockHash | apps/web/src/app/components/BlockchainVerification.tsx:18-28 | the loop computes the hash of the text followed by the decimal time, rendered as "0x" and 64 hex digits |
| BlockchainVerification.Panel.constructor | apps/web/src/app/components/BlockchainVerification.tsx:15-16 | no predictions and an empty input |
| BlockchainVerification.Panel.VerifyPrediction | apps/web/src/app/components/BlockchainVerification.tsx:30-44 | a verified, pending entry with the time as id and the block hash of text and time is put first, and the input is cleared |
| BlockchainVerification.Panel.Submit | apps/web/src/app/components/BlockchainVerification.tsx:67 | an empty input does nothing; otherwise exactly one entry for the input's text is prepended and the input cleared |
| LocaleManager.LocaleShape | apps/frontend/src/i18n.ts:5 | every supported locale is two characters with no separator, `=` or white space in it, so it survives being written into and read back from a cookie |
| LocaleManager.AvailableLocales | apps/frontend/src/lib/i18n/locale-manager.ts:69-71 | the five supported locales, each once, and nothing else |
| LocaleManager.DisplayName | apps/frontend/src/lib/i18n/locale-manager.ts:76-85 | a supported locale gets its own name, distinct from its code; any other text is shown as it is |
| LocaleManager.FindCookie | apps/frontend/src/lib/i18n/locale-manager.ts:93-94 | the first cookie item that, trimmed, starts with `NEXT_LOCALE=`, or none when no item does |
| LocaleManager.CookieValue | apps/frontend/src/lib/i18n/locale-manager.ts:97 | the text between the first and second `=`, absent without an `=` |
| LocaleManager.FromCookie | apps/frontend/src/lib/i18n/locale-manager.ts:90-102 | no document or no locale cookie gives nothing; otherwise the first locale cookie's value, and only when it is a supported locale |
| LocaleManager.FromStorage | apps/frontend/src/lib/i18n/locale-manager.ts:107-116 | the stored preference exactly when it is a supported locale |
| LocaleManager.FromBrowser | apps/frontend/src/lib/i18n/locale-manager.ts:121-126 | the browser language's primary tag, when it is a supported locale |
| LocaleManager.BrowserPrimaryTag | apps/frontend/src/lib/i18n/locale-manager.ts:124-125 | the browser locale is the language tag up to its first `-`, and a supported tag is taken whole |
| LocaleManager.InitialLocale | apps/frontend/src/lib/i18n/locale-manager.ts:29-34 | the cookie's locale, else the stored one, else the browser's, else English; always supported |
| LocaleManager.SavedCookieReadsBack | apps/frontend/src/lib/i18n/locale-manager.ts:90-102 | the cookie the browser sends back after a save reads as the saved locale |
| LocaleManager.Synced | apps/frontend/src/lib/i18n/locale-manager.ts:178-193 | another tab takes a locale from a message only when it announces a language change, and from a storage event only for the preference key with a value; in both cases only a supported locale |
| LocaleManager.AnnouncementsSync | apps/frontend/src/lib/i18n/locale-manager.ts:148-193 | both events a locale change announces hand exactly that locale to the listeners in the same window |
| LocaleManager.Manager.constructor | apps/frontend/src/lib/i18n/locale-manager.ts:11-36 | with a window the locale is the initial one and is saved to the cookie and the storage; without one it is English and nothing is saved |
| LocaleManager.Manager.Save | apps/frontend/src/lib/i18n/locale-manager.ts:131-143 | with a window the cookie and the stored preference both become the locale; without one nothing changes |
| LocaleManager.Manager.SetLocale | apps/frontend/src/lib/i18n/locale-manager.ts:48-57 | an unsupported value changes nothing; a supported one becomes current, and with a window is saved and announced on both channels |
| I18nConfig.NamesCoverLocales | apps/frontend/src/i18n.ts:5-14 | the display names are given for exactly the supported locales |
| I18nConfig.Chosen | apps/frontend/src/i18n.ts:18-45 | a supported header locale wins, then a supported `NEXT_LOCALE` cookie, then a supported language in well-formed preferences, and English otherwise |
| I18nConfig.Validated | apps/frontend/src/i18n.ts:47 | a supported locale is kept and anything else becomes English |
| I18nConfig.RequestLocale | apps/frontend/src/i18n.ts:16-53 | the request configuration's locale is always supported |
| I18nConfig.ChoiceNeedsNoGuard | apps/frontend/src/i18n.ts:23-47 | each check accepts only supported locales, so the final guard never changes the choice |
| I18nConfig.MalformedIgnored | apps/frontend/src/i18n.ts:35-42 | preferences that are not valid JSON choose what no preferences do, English when nothing else is set |
| MobileDetection.Detect | apps/frontend/src/lib/mobile-detection.ts:44-96 | without a window a 1920-wide desktop; otherwise desktop exactly when neither mobile nor tablet, the device type mobile before tablet, mobile at any width under 768, a mobile device only for a phone agent that is not a tablet agent, and a PWA exactly for a standalone display, a standalone navigator or an Android app referrer |
| MobileDetection.TabletAgentIsTablet | apps/frontend/src/lib/mobile-detection.ts:65-83 | a tablet's user agent on a screen at least 768 wide is a tablet |
| MobileDetection.WidthDecidesPlainAgents | apps/frontend/src/lib/mobile-detection.ts:68-83 | for a user agent that names no device the width alone decides: mobile under 768, tablet under 1024, desktop above |
| MobileDetection.PhoneAgentIsMobile | apps/frontend/src/lib/mobile-detection.ts:64-83 | a phone's user agent that is not a tablet's is mobile at any width |
| MobileDetection.Detector.constructor | apps/frontend/src/lib/mobile-detection.ts:23-30 | no listeners and no cached answer |
| MobileDetection.Detector.Current | apps/frontend/src/lib/mobile-detection.ts:98-103 | the cached answer when there is one, otherwise a fresh detection, which is cached; listeners are untouched |
| MobileDetection.Detector.Subscribe | apps/frontend/src/lib/mobile-detection.ts:105-109 | the callback joins the set once, and is answered at once with the current detection |
| MobileDetection.Detector.Unsubscribe | apps/frontend/src/lib/mobile-detection.ts:111-113 | the callback leaves the set and every other listener stays |
| MobileDetection.Detector.Notify | apps/frontend/src/lib/mobile-detection.ts:116-124 | a fresh detection is cached and every listener, in order, is called with it |
| Theme.Parse | apps/frontend/src/app/hooks/useTheme.ts:51 | any stored text reads as a theme, an unlisted one kept as its own text |
| Theme.ParseName | apps/frontend/src/app/hooks/useTheme.ts:51-118 | a theme written to storage reads back as the same theme, and every stored text is the name of the theme it reads as |
| Theme.EffectiveOf | apps/frontend/src/app/hooks/useTheme.ts:40-47 | high contrast stays high contrast, auto follows the system's dark preference, dark is dark and every other theme is light |
| Theme.DarkOnlyWhenAsked | apps/frontend/src/app/hooks/useTheme.ts:40-47 | effectively dark exactly for the dark theme or auto on a dark system, and high contrast exactly for the high-contrast theme |
| Theme.BodyClass | apps/frontend/src/app/hooks/useTheme.ts:66 | the body class names the sports or nature theme and is empty for any other |
| Theme.RootClasses | apps/frontend/src/app/hooks/useTheme.ts:65-73 | the root classes hold the effective theme's class, `reduce-motion` exactly under reduced motion, `high-contrast` exactly under more contrast or the high-contrast theme, and nothing else |
| Theme.Toggle | apps/frontend/src/app/hooks/useTheme.ts:95-101 | `classList.toggle` with a flag puts the class in exactly when the flag is set and leaves every other class alone |
| Theme.Hook.constructor | apps/frontend/src/app/hooks/useTheme.ts:19-24 | the hook starts at auto, light, and no motion or contrast preference |
| Theme.Hook.Initialize | apps/frontend/src/app/hooks/useTheme.ts:50-74 | the stored theme, or auto when none or empty is stored, with its effective theme from the system, the two system preferences, and the root and body classes they give |
| Theme.Hook.SetTheme | apps/frontend/src/app/hooks/useTheme.ts:115-129 | the new theme and its effective theme are set, stored under its name and applied to the root and body classes; the preferences are kept |
| Theme.Hook.DarkChange | apps/frontend/src/app/hooks/useTheme.ts:82-90 | a colour-scheme change matters only under auto: the effective theme follows it and the root keeps only that class; otherwise nothing changes |
| Theme.Hook.MotionChange | apps/frontend/src/app/hooks/useTheme.ts:92-96 | the motion preference follows the query and only the `reduce-motion` class is toggled |
| Theme.Hook.ContrastChange | apps/frontend/src/app/hooks/useTheme.ts:98-102 | the contrast preference follows the query and only the `high-contrast` class is toggled |
| Theme.RememberedAcrossVisits | apps/frontend/src/app/hooks/useTheme.ts:51-118 | a theme set and read back on the next visit is the same theme, with the same effective theme and body class |
| Theme.ContrastOffRemovesThemeClass | apps/frontend/src/app/hooks/useTheme.ts:72-101 | under the high-contrast theme the system contrast switching off removes the root class that names the theme, since both use `high-contrast` |
| EducationalAnalytics.Comprehension | packages/shared/src/libs/services/educationalAnalytics.ts:15-18 | no questions gives 0; otherwise the result is the percentage of correct answers |
| EducationalAnalytics.ComprehensionIsPercentage | packages/shared/src/libs/services/educationalAnalytics.ts:15-18 | with no more correct answers than questions the result lies in [0, 100] |
| EducationalAnalytics.Categories | packages/shared/src/libs/services/educationalAnalytics.ts:24-30 | the map's keys are the categories in order of first appearance, each once |
| EducationalAnalytics.CategoriesOfHistory | packages/shared/src/libs/services/educationalAnalytics.ts:24-30 | a category is a key exactly when it occurs in the history, and then it has at least one score |
| EducationalAnalytics.LowestIsFirstMinimum | packages/shared/src/libs/services/educationalAnalytics.ts:32-41 | the recommendation is the first category with the smallest average when that average is below 100, and "basics" when no average is below 100 |
| EducationalAnalytics.RecommendationOccurs | packages/shared/src/libs/services/educationalAnalytics.ts:20-44 | the recommendation is "basics" or a category of the history |
| EducationalAnalytics.NextPrefix | packages/shared/src/libs/services/educationalAnalytics.ts:25-30 | one more metric adds its category at the end if it is new and appends its value to that category's scores |
| EducationalAnalytics.RecommendNextTopic | packages/shared/src/libs/services/educationalAnalytics.ts:20-44 | the two loops, grouping into the map and comparing the averages, compute the first lowest-average category |
| DateHelpers.FormatMatchTime | packages/shared/src/libs/utils/dateHelpers.ts:1-16 | "Live or Finished" exactly for a past start; the whole minutes under an hour, the whole hours under a day, and the local date beyond |
| DateHelpers.MinuteThresholds | packages/shared/src/libs/utils/dateHelpers.ts:5-12 | comparing the whole minutes with 0, 60 and 1440 is comparing the milliseconds with those many minutes |
| DateHelpers.ShownCountsRoundDown | packages/shared/src/libs/utils/dateHelpers.ts:5-12 | the minutes and hours shown are the whole ones still to come, rounded down, and fewer than 24 hours |
| DateHelpers.HoursFromMinutes | packages/shared/src/libs/utils/dateHelpers.ts:12 | dividing the whole minutes by 60 gives the whole hours |
| DateHelpers.Capitalized | packages/shared/src/libs/utils/dateHelpers.ts:26 | the same length, the first character in upper case and the rest unchanged |
| DateHelpers.MatchStatus | packages/shared/src/libs/utils/dateHelpers.ts:22-27 | a live match with a non-zero minute shows that minute; anything else its status, capitalised |
| DateHelpers.MinuteZeroFallsThrough | packages/shared/src/libs/utils/dateHelpers.ts:23-26 | a live match at minute 0 or without a minute shows "Live", since 0 is falsy |
| LiveData.Or | apps/web/src/lib/api/liveData.ts:47-55 | a non-empty first text, else the second |
| LiveData.TeamScore | apps/web/src/lib/api/liveData.ts:50 | a team object's score, and 0 for a missing score or a team given as text |
| LiveData.SportIcon | apps/web/src/lib/api/liveData.ts:44-46 | basketball and tennis get their icons and every other sport the football |
| LiveData.ToLiveMatch | apps/web/src/lib/api/liveData.ts:42-56 | the score is the two team scores joined by a dash, the title the two teams joined by " vs ", the time the non-zero minute or else the status, the status never empty, and the description the competition, else the league, else "Live Match" |
| LiveData.MissingScoreIsNil | apps/web/src/lib/api/liveData.ts:50 | a match without score objects shows 0-0 |
| LiveData.FetchLiveMatches | apps/web/src/lib/api/liveData.ts:31-61 | one card per listed match, in order; a failed request or an unusable answer gives no cards |
| LiveData.TagIcon | apps/web/src/lib/api/liveData.ts:76-78 | an item without tags gets the newspaper icon |
| LiveData.Description | apps/web/src/lib/api/liveData.ts:81 | a non-empty preview is kept; otherwise up to the first 100 characters of the full content followed by "..." |
| LiveData.TimeAgoUnits | apps/web/src/lib/api/liveData.ts:93-101 | the whole seconds elapsed shown in minutes under an hour, in hours under a day and in days beyond |
| LiveData.FutureDateShowsNegativeMinutes | apps/web/src/lib/api/liveData.ts:96-98 | an article dated a minute or more in the future shows a negative count of minutes |
| LiveData.ToNewsItem | apps/web/src/lib/api/liveData.ts:74-86 | the badge is BREAKING for the first two positions, the time is the elapsed time, a non-zero view count is the comment count, and title, views and author are carried over |
| LiveData.FetchLatestNews | apps/web/src/lib/api/liveData.ts:63-91 | the first five items, in order, as cards; a failed request or an unusable answer gives none |
| LiveData.NewsBadges | apps/web/src/lib/api/liveData.ts:74-79 | at most five cards, and exactly the first two are breaking news |
| NewsController.AccessOf | apps/backend/src/controllers/newsController.ts:44-46 | member access exactly when the authorization header contains "Bearer member" or the auth query is "member" |
| NewsController.ViewFor | apps/backend/src/controllers/newsController.ts:50-60 | a member sees the article as stored; a guest sees it flagged as a preview, with the preview and the notice in place of the full content and everything else kept |
| NewsController.GuestSeesOnlyPreview | apps/backend/src/controllers/newsController.ts:55-59 | a guest's full content is exactly the preview followed by the notice, and nothing else of the article changes |
| NewsController.NewestActive | apps/backend/src/controllers/newsController.ts:39-41 | the newest active articles of the store, newest first, as many as there are up to 20, none more often than stored, and no active article left out newer than one kept |
| NewsController.AllNews | apps/backend/src/controllers/newsController.ts:34-71 | the newest active articles, as NewestActive selects them, each shown in order as the access level views it: a preview exactly for a guest; with the count, the access level and the member benefits for guests |
| NewsController.FindById | apps/backend/src/controllers/newsController.ts:89-91 | the first document with the id (active, when asked), or none when no document matches |
| NewsController.NewsById | apps/backend/src/controllers/newsController.ts:83-128 | an unparsable id or no active document with it is a 404 that changes nothing; otherwise the view for the access level, and a member's read adds one to the stored view count |
| NewsController.ReadsCountOnlyForMembers | apps/backend/src/controllers/newsController.ts:106-110 | a member's read raises the view count by one; a guest's leaves storage as it was |
| NewsController.MaxId | apps/backend/src/controllers/newsController.ts:148 | the highest id in storage, none exactly when storage is empty |
| NewsController.NextId | apps/backend/src/controllers/newsController.ts:148-149 | the next id is above every stored id, one above the highest, and 1 for an empty store |
| NewsController.CreateNews | apps/backend/src/controllers/newsController.ts:140-167 | one document is appended with the next id, active and unread, the author or "Admin", the tags or none, and the given title, preview and content; the stored ones are kept |
| NewsController.CreateKeepsIdsUnique | apps/backend/src/controllers/newsController.ts:148-161 | creating an article keeps the ids distinct |
| NewsController.Applied | apps/backend/src/controllers/newsController.ts:187-191 | every field the update gives replaces the stored one, the rest are kept, and the id, the creation time and the view count never change |
| NewsController.UpdateNews | apps/backend/src/controllers/newsController.ts:179-205 | a 404 changing nothing exactly when the id is unparsable or no document has it; otherwise the first document with it, active or not, is replaced by the updated one, which is returned |
| NewsController.DeleteNews | apps/backend/src/controllers/newsController.ts:217-240 | a 404 changing nothing exactly when no document has the id; otherwise the document stays, inactive |
| NewsController.DeletedIsHidden | apps/backend/src/controllers/newsController.ts:89-227 | once deleted, an article is not found by id and the active articles do not grow |
| NewsController.CountDeactivated | apps/backend/src/controllers/newsController.ts:224-227 | marking a document inactive never adds an active article |
| NewsAuthorService.Merged | apps/api/src/modules/news/services/newsAuthorService.ts:15-22 | the given fields replace the stored ones, the rest are kept, and the author is active |
| NewsAuthorService.FindAuthor | apps/api/src/modules/news/services/newsAuthorService.ts:11-15 | the first author with the id (active, when asked), or none when no author matches |
| NewsAuthorService.NextArticleId | apps/api/src/modules/news/services/newsAuthorService.ts:33-34 | the next article id is above every stored id, one above the highest, and 1 for no articles |
| NewsAuthorService.KindOf | apps/api/src/modules/news/services/newsAuthorService.ts:64-88 | the templates object has a key for exactly the three event types prediction_success, community_milestone and analysis_update |
| NewsAuthorService.OwnTemplate | apps/api/src/modules/news/services/newsAuthorService.ts:64-88 | a template exactly for the event types with a key, each with a title, a collaboration type and tags |
| NewsAuthorService.TemplateOf | apps/api/src/modules/news/services/newsAuthorService.ts:65-85 | each of the three templates sets a title, a collaboration type and tags |
| NewsAuthorService.TemplateAsWritten | apps/api/src/modules/news/services/newsAuthorService.ts:64-89 | as written, a name the template object inherits finds a function, read as a template without any fields; every other name finds its own template or none |
| NewsAuthorService.InheritedNameIsNotUnknown | apps/api/src/modules/news/services/newsAuthorService.ts:88-93 | as written, the event type "toString" is not refused as unknown and goes on to write an article without a title |
| NewsAuthorService.DefaultIdsDistinct | apps/api/src/modules/news/services/newsAuthorService.ts:97-119 | the three default authors have distinct ids |
| NewsAuthorService.Service.constructor | apps/api/src/modules/news/services/newsAuthorService.ts:4 | the service over a store of authors with distinct ids and a store of articles |
| NewsAuthorService.Service.ActiveAuthors | apps/api/src/modules/news/services/newsAuthorService.ts:5-8 | a permutation of the active authors, most collaborations first |
| NewsAuthorService.Service.AuthorById | apps/api/src/modules/news/services/newsAuthorService.ts:10-12 | an active author with the id, or none when there is no such author |
| NewsAuthorService.Service.CreateOrUpdateAuthor | apps/api/src/modules/news/services/newsAuthorService.ts:14-24 | an upsert by id: the stored author is merged with the data, or a new one is appended, always active; the ids stay distinct and other authors are kept |
| NewsAuthorService.Service.CreateCollaborationNews | apps/api/src/modules/news/services/newsAuthorService.ts:26-61 | an unknown or inactive author is an error that changes nothing; otherwise one article is appended with the next id, the author as they were and the data, and the author's collaboration count goes up by one with the time recorded |
| NewsAuthorService.Service.GenerateAutoNews | apps/api/src/modules/news/services/newsAuthorService.ts:63-94 | an event type without a template writes nothing and answers null; a missing author is an error that writes nothing; otherwise the whole template article is written with the next id, the author and the default tags, active, and the author's collaboration count rises by one with the time as its last collaboration |
| NewsAuthorService.Service.InitializeDefaultAuthors | apps/api/src/modules/news/services/newsAuthorService.ts:96-124 | after the three upserts every default author is installed and active, and every other author is kept |
| TeamFavorites.Load | apps/web/src/components/TeamFavorites.tsx:16-22 | after mounting the favourites are the stored list, or none when nothing is stored, with an empty input and no matches |
| TeamFavorites.TrimIdempotent | apps/web/src/components/TeamFavorites.tsx:52-53 | trimming a trimmed name changes nothing |
| TeamFavorites.Add | apps/web/src/components/TeamFavorites.tsx:51-58 | a non-empty trimmed input not yet listed is appended, stored and cleared; anything else changes nothing |
| TeamFavorites.AddKeepsWellFormed | apps/web/src/components/TeamFavorites.tsx:51-58 | adding keeps the favourites distinct, non-empty and trimmed, and adds at most the trimmed input, at the end |
| TeamFavorites.AddTwiceIsAddOnce | apps/web/src/components/TeamFavorites.tsx:51-58 | pressing Add a second time changes nothing, since the input was cleared or refused |
| TeamFavorites.Without | apps/web/src/components/TeamFavorites.tsx:61 | the list without the team, in order |
| TeamFavorites.Remove | apps/web/src/components/TeamFavorites.tsx:60-64 | the team is filtered out and the new list stored; the input and the matches are kept |
| TeamFavorites.WithoutAbsent | apps/web/src/components/TeamFavorites.tsx:61 | removing a name that is not listed changes nothing, and removing one appended at the end gives back the list before |
| TeamFavorites.SubsequenceNoDuplicates | apps/web/src/components/TeamFavorites.tsx:61 | filtering a list without repeats leaves one without repeats |
| TeamFavorites.RemoveKeepsWellFormed | apps/web/src/components/TeamFavorites.tsx:60-64 | removing keeps the favourites well formed and the team is no longer among them |
| TeamFavorites.AddThenRemove | apps/web/src/components/TeamFavorites.tsx:51-64 | removing a name just added gives back the list before |
| TeamFavorites.FavouriteTeamIsRelevant | apps/web/src/components/TeamFavorites.tsx:33-37 | a match whose home or away team is a favourite's exact name is relevant |
| TeamFavorites.NamelessMatchIsIrrelevant | apps/web/src/components/TeamFavorites.tsx:35-36 | a match without team names is never relevant |
| TeamFavorites.Refresh | apps/web/src/components/TeamFavorites.tsx:24-49 | without favourites, or with a failed or unsuccessful answer, the matches are kept; otherwise they are the answer's relevant matches, in order |
| TeamFavorites.StaleMatchesAfterLastRemoval | apps/web/src/components/TeamFavorites.tsx:26-64 | removing the last favourite leaves the old matches on screen, since no refresh is made without favourites |
| TeamFavorites.Shown | apps/web/src/components/TeamFavorites.tsx:124 | the first three matches, or all of them when there are fewer |
| UserFavorites.Load | apps/frontend/src/app/components/UserFavorites.tsx:29-32 | the saved list, or an empty one when nothing is saved |
| UserFavorites.Add | apps/frontend/src/app/components/UserFavorites.tsx:34-42 | the item, stamped with the time, goes first and the list is saved |
| UserFavorites.WithId | apps/frontend/src/app/components/UserFavorites.tsx:45 | the entries with an id never outnumber the list |
| UserFavorites.AddDoesNotDeduplicate | apps/frontend/src/app/components/UserFavorites.tsx:34-42 | adding never merges: the list grows by one and an id already saved is saved once more |
| UserFavorites.WithoutId | apps/frontend/src/app/components/UserFavorites.tsx:45 | the list without the entries of the id, in order |
| UserFavorites.Remove | apps/frontend/src/app/components/UserFavorites.tsx:44-48 | every entry with the id goes, the rest stay in order, and the list is saved |
| UserFavorites.NoneWithId | apps/frontend/src/app/components/UserFavorites.tsx:45 | a list without the id holds no entry with it |
| UserFavorites.AddThenRemove | apps/frontend/src/app/components/UserFavorites.tsx:34-48 | removing an id right after adding it gives what removing it alone gives: every earlier copy goes too |
| UserFavorites.Filtered | apps/frontend/src/app/components/UserFavorites.tsx:50-52 | "all" shows the whole list; a kind shows exactly the entries of that kind, in order |
| UserFavorites.SubsequenceOfItself | apps/frontend/src/app/components/UserFavorites.tsx:50-51 | the whole list is a subsequence of itself |
| UserFavorites.AddedItemShowsFirst | apps/frontend/src/app/components/UserFavorites.tsx:34-52 | a new item shows first under every filter that admits it and leaves the other filters' views unchanged |
| UserFavorites.TypeColor | apps/frontend/src/app/components/UserFavorites.tsx:54-63 | every kind of favourite gets one of its own colours, never the fallback grey |
| UserFavorites.ColoursTellKindsApart | apps/frontend/src/app/components/UserFavorites.tsx:54-63 | two different kinds get different colours |
| PortalCommandCenter.Filtered | apps/frontend/src/app/components/PortalCommandCenter.tsx:83-86 | the commands whose label or category contains the search text, ignoring case, in order |
| PortalCommandCenter.EmptySearchShowsAll | apps/frontend/src/app/components/PortalCommandCenter.tsx:83-86 | an empty search shows every command, in order |
| PortalCommandCenter.CategorySearchShowsCategory | apps/frontend/src/app/components/PortalCommandCenter.tsx:83-86 | searching for a category's name shows every command of that category |
| PortalCommandCenter.OnKey | apps/frontend/src/app/components/PortalCommandCenter.tsx:21-30 | Ctrl+K or Cmd+K opens, Escape closes, and other keys change nothing |
| PortalCommandCenter.Pushed | apps/frontend/src/app/components/PortalCommandCenter.tsx:90 | the command's id heads the recent list, followed by at most four earlier ones, in order |
| PortalCommandCenter.Execute | apps/frontend/src/app/components/PortalCommandCenter.tsx:88-93 | running a command pushes its id onto the recent list, closes the palette and clears the search |
| PortalCommandCenter.Take | apps/frontend/src/app/components/PortalCommandCenter.tsx:90 | the first n entries, or all when there are fewer |
| PortalCommandCenter.Reversed | apps/frontend/src/app/components/PortalCommandCenter.tsx:90 | the list in reverse order |
| PortalCommandCenter.TakeTake | apps/frontend/src/app/components/PortalCommandCenter.tsx:90 | cutting a tail to n before cutting the whole to n changes nothing |
| PortalCommandCenter.RecentIsNewestFive | apps/frontend/src/app/components/PortalCommandCenter.tsx:88-93 | after any run of commands the recent list is the last five run, newest first, repeats included |
| PortalCommandCenter.CategoriesOf | apps/frontend/src/app/components/PortalCommandCenter.tsx:207-213 | the categories in order of first appearance, each once, and exactly those of the commands |
| PortalCommandCenter.OfCategory | apps/frontend/src/app/components/PortalCommandCenter.tsx:208-211 | the commands of one category, in order |
| PortalCommandCenter.FilterLast | apps/frontend/src/app/components/PortalCommandCenter.tsx:208-211 | one more command adds itself at the end of its own category's commands only |
| PortalCommandCenter.ReduceGroups | apps/frontend/src/app/components/PortalCommandCenter.tsx:207-213 | the reduce's keys are the categories in order of first appearance, and each key holds its category's commands in order |
| PortalCommandCenter.GroupsByCategory | apps/frontend/src/app/components/PortalCommandCenter.tsx:207-213 | each group is a category with its commands in order, the groups in first-appearance order, and every command is in its own category's group |
| MagajiCoAppLauncher.Filtered | apps/web/src/app/components/MagajiCoAppLauncher.tsx:156-163 | the apps whose name or description contains the query, ignoring case, and whose category is the selected one or any under "all", in order |
| MagajiCoAppLauncher.EmptyQueryShowsAll | apps/web/src/app/components/MagajiCoAppLauncher.tsx:156-163 | an empty query under "all" shows every app |
| MagajiCoAppLauncher.PrimaryApps | apps/web/src/app/components/MagajiCoAppLauncher.tsx:165 | the primary apps, in order |
| MagajiCoAppLauncher.PrimarySection | apps/web/src/app/components/MagajiCoAppLauncher.tsx:267-277 | under "all" and "navigation" the primary apps matching the query, whatever their category; nothing under any other category |
| MagajiCoAppLauncher.ShownPrimarySection | apps/web/src/app/components/MagajiCoAppLauncher.tsx:264-277 | the grid shows the primary section only while some app passes the search and the category; otherwise nothing of it |
| MagajiCoAppLauncher.PrimaryGuardIsUnobservable | apps/web/src/app/components/MagajiCoAppLauncher.tsx:264-277 | when every primary app is a navigation app, the grid's emptiness guard hides no primary app: the shown section is the primary section |
| MagajiCoAppLauncher.ListPrimaryGuardIsUnobservable | apps/web/src/app/components/MagajiCoAppLauncher.tsx:51-165 | for the launcher's own list, whose primary apps are all navigation apps, the guard changes nothing on any query and category |
| MagajiCoAppLauncher.MoreApps | apps/web/src/app/components/MagajiCoAppLauncher.tsx:303-306 | under "all" the filtered apps that are not primary; under any other category all the filtered apps |
| MagajiCoAppLauncher.SectionsSplitUnderAll | apps/web/src/app/components/MagajiCoAppLauncher.tsx:267-306 | under "all" each matching app shows in exactly one of the two sections |
| MagajiCoAppLauncher.NavigationListsPrimaryTwice | apps/web/src/app/components/MagajiCoAppLauncher.tsx:267-306 | under "navigation" a matching primary navigation app is listed twice, in both sections |
| MagajiCoAppLauncher.PrimaryAppsOfTheList | apps/web/src/app/components/MagajiCoAppLauncher.tsx:19-119 | the list has ten apps, and its five primary apps come first |
| MagajiCoAppLauncher.OnKey | apps/web/src/app/components/MagajiCoAppLauncher.tsx:140-153 | before mounting no key does anything; once mounted Escape closes, Ctrl+K or Cmd+K opens, and other keys change nothing |
| MagajiCoAppLauncher.Toggle | apps/web/src/app/components/MagajiCoAppLauncher.tsx:173 | the floating button flips the launcher open or closed and keeps the query and category |
| MagajiCoAppLauncher.Footer | apps/web/src/app/components/MagajiCoAppLauncher.tsx:339 | the footer counts the filtered apps out of all of them |
| AppLauncher.Shown | apps/web/src/app/components/AppLauncher.tsx:142-147 | the launcher's apps matching the query and the category, in order |
| AppLauncher.DefaultShowsNine | apps/web/src/app/components/AppLauncher.tsx:18-102 | nine apps, all shown for an empty query under "all" |
| AppLauncher.FooterCount | apps/web/src/app/components/AppLauncher.tsx:258 | the footer counts the shown apps out of nine |
| AppLauncher.OnKey | apps/web/src/app/components/AppLauncher.tsx:123-140 | before mounting no key does anything; once mounted Ctrl+K or Cmd+K opens and Escape closes an open launcher, keeping the query and category |
| AppLauncher.EscapeGuardIsUnobservable | apps/web/src/app/components/AppLauncher.tsx:128-135 | checking that the launcher is open before Escape closes it changes nothing: both launchers answer every key alike |
| ErrorAnalytics.ErrorTypeOf | apps/web/src/app/components/ErrorAnalyticsDashboard.tsx:20 | the error's name when it has a non-empty one, else "Unknown"; never empty |
| ErrorAnalytics.Bumped | apps/web/src/app/components/ErrorAnalyticsDashboard.tsx:25-29 | the entries of the type count one more error, stamped with the time; the others are unchanged |
| ErrorAnalytics.Record | apps/web/src/app/components/ErrorAnalyticsDashboard.tsx:22-32 | a known type is bumped in place; a new type is appended with one error and none resolved |
| ErrorAnalytics.Health | apps/web/src/app/components/ErrorAnalyticsDashboard.tsx:40-44 | 100 without errors; otherwise 100 less five per unresolved error, never below 0 |
| ErrorAnalytics.Max0 | apps/web/src/app/components/ErrorAnalyticsDashboard.tsx:43 | `Math.max(0, x)`: at least 0 and x, and one of them |
| ErrorAnalytics.HealthIsPercentage | apps/web/src/app/components/ErrorAnalyticsDashboard.tsx:40-44 | with no more resolved than recorded errors the health lies in [0, 100] |
| ErrorAnalytics.RecordCounts | apps/web/src/app/components/ErrorAnalyticsDashboard.tsx:22-32 | recording an error keeps the types distinct, adds exactly one error, resolves nothing and lists the type |
| ErrorAnalytics.BumpedTotals | apps/web/src/app/components/ErrorAnalyticsDashboard.tsx:25-29 | bumping the one entry of a type adds one to the error total and leaves the resolved total |
| ErrorAnalytics.UntouchedTotals | apps/web/src/app/components/ErrorAnalyticsDashboard.tsx:25-29 | bumping a type no entry has changes nothing |
| ErrorAnalytics.HealthAfterErrors | apps/web/src/app/components/ErrorAnalyticsDashboard.tsx:19-44 | since nothing resolves an error, after n errors the health is 100 less 5n, never below 0, so from the twentieth error on it is 0 |
| ErrorAnalytics.NoResolvedTotal | apps/web/src/app/components/ErrorAnalyticsDashboard.tsx:42 | with nothing resolved the resolved total is 0 |
| ErrorAnalytics.HealthDot | apps/web/src/app/components/ErrorAnalyticsDashboard.tsx:56 | green exactly above 80, red exactly at 50 or below, yellow between |
| ErrorAnalytics.DotsAfterErrors | apps/web/src/app/components/ErrorAnalyticsDashboard.tsx:43-56 | up to three errors the dot stays green; from ten on it is red |
| PerformanceOptimizer.PerformanceScore | archive/20251029_044024_full_backup/frontend/src/app/components/PerformanceOptimizer.tsx:58-66 | the checks take their points off in turn and the result is the score of the metrics, in [30, 100] |
| PerformanceOptimizer.ScoreBounds | archive/20251029_044024_full_backup/frontend/src/app/components/PerformanceOptimizer.tsx:60-65 | the score lies in [30, 100], so the clamp at 0 never applies, and it is 100 exactly when no limit is passed |
| PerformanceOptimizer.ScoreMonotone | archive/20251029_044024_full_backup/frontend/src/app/components/PerformanceOptimizer.tsx:60-64 | worse metrics never raise the score |
| PerformanceOptimizer.Latency | archive/20251029_044024_full_backup/frontend/src/app/components/PerformanceOptimizer.tsx:52-53 | the drawn latency is a whole number of milliseconds in [50, 250] |
| PerformanceOptimizer.Measured | archive/20251029_044024_full_backup/frontend/src/app/components/PerformanceOptimizer.tsx:15-56 | after the mount effect the load time is still 0 and the latency in [50, 250] |
| PerformanceOptimizer.ShownScores | archive/20251029_044024_full_backup/frontend/src/app/components/PerformanceOptimizer.tsx:15-68 | so the load and latency checks never apply and the score shown is 100, 85, 80 or 65 |
| PerformanceOptimizer.ScoreColour | archive/20251029_044024_full_backup/frontend/src/app/components/PerformanceOptimizer.tsx:69-73 | green exactly from 80, yellow exactly from 60 to below 80, red exactly below 60 |
| PerformanceOptimizer.ColourOfOnePenalty | archive/20251029_044024_full_backup/frontend/src/app/components/PerformanceOptimizer.tsx:60-73 | with load, memory and latency within their limits the score is green whatever the render time |

## Left out

- Estimators: the sklearn estimators, their training, `cross_val_score` and the synthetic training data are not modelled. The estimators are function parameters that return distributions.
- Numeric functions: `np.tanh` and `np.std` are function parameters with stated ranges. `np.random` draws are arguments.
- Command line: the `__main__` entry point of the prediction script is not modelled.
- Floating point: probabilities and amounts are exact `real`s. IEEE rounding and `toFixed`/`toLocaleString` formatting are not modelled, except where a rounding to a tenth or to a whole number is written out.
- Storage and network: MongoDB and mongoose calls are map or sequence lookups and updates. `fetch`, axios, cheerio scraping and the payment SDKs are results passed in. Where LocaleManager, Theme, TeamFavorites, UserFavorites and SmartNotifications keep data in local or client storage, it is a field or a parameter. PiCoinManager and PaymentManager do not model their storage, as the lines below say.
  - Mongoose validation failures and the 500 catch paths of the controllers are not modelled. These cover the auth, news, predictions and Pi-coin controllers.
- Concurrency: asynchronous interleavings, timers, `setInterval` polling, AbortController timeouts and the ML API's semaphore and request queue are not modelled. Each handler runs to completion.
- PiCoinManager:
  - loading from and saving to storage, and `exportWalletData` (JSON text), are not modelled;
  - transaction ids are parameters;
  - `ValidateTransaction` and `GetTotalSupply` are specification functions without contracts of their own.
  - A transfer leaves the summed balance unchanged only when the receiver levels up with no bonus. Otherwise the sum grows by exactly the bonuses.
- PiCoinManager.LevelUps: where the source's level-up recursion never settles (a wallet still due at level 9 or above), the model performs one level-up with its bonus instead of looping for ever. Everywhere else it is the source's cascade. `Earned`, `EarnCoins`, `TransferCoins`, `PurchasePiCoins` and `AddTransaction` inherit this.
- PiCoinController.Store.TransferCoins: a transfer to oneself is modelled as the handler runs it, on the assumption that a save writes only the fields its copy changed (as Mongoose does for a loaded document). The wallet then ends with its balance and its total earned raised by the amount, its total spent raised by the amount, and both transactions recorded: the amount is minted, and the balance is no longer earnings minus spending. Saves that write the whole document are not modelled. The `PiWallet` model file is not part of this model.
- ArchiveAggregation and Consensus: the ML service is a function parameter. The top-level catch that answers `[]` is not modelled: an exception thrown while aggregating does not occur in the model.
- PaymentManager: `formatCurrency`, `handleWebhook` and the provider SDK calls are not modelled. The provider routines are results passed in.
- PaymentManager.Manager.constructor: `loadFromStorage` and `saveToStorage` (restoring and writing back the transactions and subscriptions in a browser) are not modelled; the manager starts with no transactions and no subscriptions, as it does outside a browser, and no operation writes to storage.
- PaymentManager.FeeRate: a provider name the rate table inherits, such as `toString`, gives NaN in the source; the model gives it 3%.
- Coppa: the `/content` route is not modelled, because its `filterGamblingContent` middleware and `loadContentForSomeEndpoint` are not part of this model. Sending e-mail is not modelled. The source checks no verification token, and neither does the model.
- AuthController: bcrypt hashing and JWT signing and checking are function parameters.
- HealthMonitor: the monitoring timers, the request timeout, the staggered start and console logging are not modelled. The two `new Date()` calls after a successful fetch (`lastCheck` and `lastSuccessfulCheck`) are one instant in the model.
- ErrorRecovery: the strategies' side effects (clearing caches or storage, reloading) are one `run` parameter. Each strategy's regular expression is modelled as an ordered list of words to search for.
- MlApi: these routes are not modelled: CORS, the lifespan hook, `/`, `/health`, `/model/info` and `/train`. Also left out:
  - the global exception handler;
  - the md5 cache key, which is modelled as the feature vector itself;
  - the answer to a request over the limit. `Service.RateLimit` reports only `accepted == false`, and the model gives no HTTP status for it. In the source the `HTTPException(429)` is raised inside an `@app.middleware("http")` function (api.py:36-48). That function runs outside the exception middleware that would turn the exception into a 429, so the exception reaches the global `Exception` handler (api.py:188-205). The client then gets a 500 whose `error` field is "429: Rate limit exceeded".
- PredictionController: `getAllPredictions`, `getPredictionById` and `createPrediction` are plain database reads and writes, and are not modelled.
- MlPredictionService: the request timeout and the reading of environment settings are not modelled.
- SportsDataService:
  - the contents of the mock data, the heat maps and the random live updates are not modelled;
  - JavaScript truthiness of cached data is modelled as presence;
  - the mock prediction requires a non-zero total strength, where the source divides by zero.
- EnhancedSportsDataService: the WebSocket simulation, `startDataRefresh` and `fetchWithTimeout` are not modelled.
- SmartNotifications: generated ids are parameters. The resize listener, the interval, the browser Notification API and ClientStorage serialisation are not modelled.
- PredictionLeague: the list of leagues, which is random, is not modelled. The best rank's random draw is a parameter.
- NewsAuthorService: the schema defaults are not modelled; an author created by an upsert gets blank fields.
- TeamFavorites: the fetch and JSON parse errors are not modelled. Both are an absent answer. The polling interval and the date display are not modelled.
- UserFavorites: ClientStorage serialisation, the metadata field and `onFavoriteSelect` are not modelled.
- PortalCommandCenter, MagajiCoAppLauncher and AppLauncher: command actions, icons, colours and links are not modelled.
- ErrorAnalytics: `toLocaleTimeString` is not modelled. The environment check is a parameter.
- PerformanceOptimizer: the performance observers and the memory reading are inputs, `Math.random` is a parameter, and the battery colour is not modelled.
- EducationalAnalytics: `trackLearningProgress` only logs, and is not modelled.
- DateHelpers: invalid dates, the locale's date format and Unicode case mapping beyond ASCII are not modelled.
- LiveData: the HTTP request is an optional answer.
- NewsController: the mongoose schema's 400 and 500 paths are not modelled.
- NewsController.Applied: the update takes a typed body of the known fields. The source passes `req.body` to the database unchecked, so unknown fields and fields of the wrong type are not modelled.
- Sort ties: MongoDB's `sort` leaves the order of documents with equal keys to the database. The model breaks ties one fixed way, by an insertion sort. Its contracts state only what holds under any tie order: the result is sorted, and it selects the right elements.
- Text: Dafny strings are sequences of Unicode scalar values. JavaScript strings are sequences of UTF-16 code units, and `toLowerCase` folds all of Unicode. The members below differ from the source on such text; they agree on text of ASCII or Basic Multilingual Plane characters (for the case folding, on ASCII letters).
- BlockchainVerification.Hash: hashes one round per Unicode scalar, where `charCodeAt` gives two rounds (the surrogate pair) for a character outside the Basic Multilingual Plane, such as an emoji.
- ErrorRecovery.ErrorKey: keeps the first 50 Unicode scalars, where `slice(0, 50)` keeps 50 UTF-16 code units. A message with a character outside the Basic Multilingual Plane among its first 50 gets a different key.
- LiveData.Description: cuts at 100 Unicode scalars, where `substring(0, 100)` cuts at 100 UTF-16 code units.
- TeamFavorites.Refresh: relevance lowers case with the ASCII-only `Strings.ToLower`, so a favourite such as "ATLÉTICO" does not match "Atlético Madrid", which `toLowerCase` matches.
- Strings.ContainsCI: folds ASCII letters only. The launchers' and PortalCommandCenter's searches and the PaymentRoutes gambling-term test use it, and so miss matches that differ in the case of non-ASCII letters.
- LocaleManager: the browser's cookie jar is modelled as the one cookie the manager writes. The cookie's path, max-age and SameSite attributes are kept only as text.
- Theme: a stored text that names no theme is kept as an unlisted theme, so that it reads back unchanged.
- ScraperService: the model does not prove that all rows are kept exactly when all parse. It proves each row's parse separately.
- ScraperService: every prediction of one scrape is stamped from a single clock reading `now`, where the source reads `Date.now()` afresh for each row and fallback.
- LiveData.ToLiveMatch: the card's homeTeam and awayTeam are text. Where the team has no non-empty name, the source passes the team object itself, or undefined, through to the card; the model shows the text the title would show ("[object Object]" or "undefined").
- MlPredictor.EnsembleWeights: a zero score total gives None, where numpy would give NaN weights.
- DailyPredictionLimit: local days are computed with a fixed offset from UTC, so days that daylight saving time lengthens or shortens are not modelled.
- PiCoinController: a `limit` or `offset` query text that `parseInt` cannot read (NaN) is not modelled; both are integers.
- EnhancedSportsDataService: a cache hit is a present, unexpired entry. The source's `if (cached)` also treats a stored falsy value (0, an empty text, null) as a miss; the model does not.

## Findings

| source | as written | input that shows it | evidently intended | confidence | as-written member | corrected member |
|---|---|---|---|---|---|---|
| apps/api/src/modules/picoins/controllers/piCoinController.ts:156-207 | A transfer to oneself is not refused. The wallet is loaded twice; one copy is debited and saved, then the other, whose balance was computed before the debit, is credited and saved over it. | fromUserId = toUserId naming a wallet of balance 100, amount 50: the balance ends at 150 | a transfer never changes the summed balance (refused, or both updates applied to the one wallet) | not executed | PiCoinController.SelfTransferAsWritten, PiCoinController.SelfTransferMints, PiCoinController.Store.SaveSelfTransfer | PiCoinController.Transferred, PiCoinController.TransferredConserves |
| packages/shared/src/libs/utils/piCoinManager.ts:154 | `earnCoins` calls `checkLevelUp`, whose bonus calls `earnCoins` again before the rate-limit timestamp is added. Once the total earned keeps pace with the level threshold, the recursion never stops. | a new wallet earning 1000 | the cascade as written where it settles, and one level-up with its bonus where it would never settle | not executed | PiCoinManager.CascadeAsWritten, PiCoinManager.CascadeNeverSettles, PiCoinManager.NewWalletEarningThousandDiverges | PiCoinManager.LevelUps, PiCoinManager.LevelUpsAgreeWhereSourceSettles, PiCoinManager.LevelUpsOnceWhereSourceDiverges |
| apps/backend/src/routes/payment.ts:91 | The category limit is read from a plain object. An inherited name such as `toString` finds a function, so no numeric limit applies to a minor. | type "toString", age 15, parental consent, amount 40 | unknown types get the default limit of 25 | not executed | PaymentRoutes.CategoryLimitAsWritten, PaymentRoutes.ProcessAsWritten, PaymentRoutes.InheritedNameSkipsCategoryLimit | PaymentRoutes.CategoryLimit, PaymentRoutes.Process, PaymentRoutes.MinorAcceptedWithinLimits |
| apps/web/src/components/PredictionStreak.tsx:22-43 | The walk runs over the list sorted newest first. The counter it ends with, shown as the current streak, is therefore the run among the oldest predictions. | [newest correct, older wrong] shows 0 | the run of correct predictions since the newest wrong one (1 here) | not executed | PredictionStreak.Streaks, PredictionStreak.ShownStreakIsOldestRun | PredictionStreak.LatestRun, PredictionStreak.LatestRunIsNewestStretch, PredictionStreak.Widget.FetchStreak |
| apps/web/src/components/ConfidenceCalibration.tsx:35-41 | Every bucket is half-open, so a confidence of 100 falls in no bucket, although the last one is labelled 90-100%. | one settled prediction at confidence 100 | the last bucket closed at 100 | not executed | ConfidenceCalibration.CalibrateAsWritten, ConfidenceCalibration.FullConfidenceDropped | ConfidenceCalibration.Calibrate, ConfidenceCalibration.ExactlyOneBucket, ConfidenceCalibration.TotalOfBuckets |
| apps/api/src/modules/news/services/newsAuthorService.ts:88-93 | The template is looked up in a plain object. An inherited name finds a function, which passes the unknown-type check and is then written as an article without a title. | event type "toString" | unknown event types answer null | not executed | NewsAuthorService.TemplateAsWritten, NewsAuthorService.InheritedNameIsNotUnknown | NewsAuthorService.OwnTemplate, NewsAuthorService.Service.GenerateAutoNews |

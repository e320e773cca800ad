# Loyalty points reconciliation, modelled in Dafny

The loyalty platform turns a user's newly observed bank transactions into
points at participating stores, rewards earned at those stores, and a new
global points balance. All of that logic sits in `app/utils/functions/user.ts`.
This project models it:

- `createTransactionRecords` matches each bank transaction to the first store
  whose vendor name equals its description exactly. Unmatched transactions are
  dropped. Each matched one becomes a record with the signed amount, the
  posting date, the store id, the user id and `|amount| * points rate` points.
  The model keeps the form of `user.ts`: a reducer step and a left fold
  (`User.Reducer`, `User.Reduce`). It is proved equal to an independent filter
  definition (`User.Matched`) with field-by-field record contents
  (`User.IsRecordOf`).
- `processNewTransactions` is modelled as methods with loops. The first loop
  sums absolute spend and fills the per-store points map. The JavaScript `Map`
  is a `map` together with the sequence of its keys in first-insertion order.
  The second loop walks that map in key order. It emits one points record per
  store, and for each store found in the store data, one reward record per
  reward type whose cost the balance strictly exceeds and that the user does
  not already hold.
- Line 60 of `user.ts` adds the stored balance again for every new
  transaction at the same store. The model keeps this behaviour: a store with
  k new transactions ends at `k * stored balance + sum of their points`
  (`User.StoreBalance` follows that recurrence, `User.StoreBalanceClosedForm`
  proves the closed form, and `User.StoredBalanceRecounted` works an example).
- Each `new Date().toISOString()` is a separate reading of the clock. The
  reward records take successive readings in the order they are pushed, and
  `last_updated` takes the reading after the last of them.
- `userData.rewards.map(reward => reward.reward_types!.id)` throws a
  `TypeError` when a reward's joined reward type is null. This happens after
  the balance loop and before any write is issued, and the promise rejects.
  The model represents the join as an option and the outcome as
  `Wrappers.Settled` (fulfilled with a boolean, or rejected).
- `refreshUserData` stops when there are no new transactions. It returns false
  and issues no store query and no write.

The database client calls are recorded as a trace of `Tables.Effect` values.
What the fetches return comes in as parameters (`userData`, `storeData`).
The outcome of waiting on the four writes comes in as a parameter
(`writesSucceed`). So do the clock readings: `clock(n)` is what the call of
`new Date()` numbered `n` (from 0) in one run returns.

Files: `wrappers.dfy` (Option; `ArrayMethods.FindIndex`, the semantics of
`Array.prototype.find`/`findIndex`), `tables.dfy` (rows and effects),
`user.dfy` (the model of `user.ts` and its proofs).

## Model

| member | source | states |
|---|---|---|
| `ArrayMethods.FindIndex` | app/utils/functions/user.ts:27 | the index returned is that of the first element satisfying the predicate; `None` exactly when no element does |
| `User.Abs` | app/utils/functions/user.ts:32 | `Math.abs` on the parsed amount: non-negative and equal to the amount or its negation |
| `User.VendorIndex` | app/utils/functions/user.ts:27 | the store found for a description is the first one whose vendor name equals it exactly (case-sensitive); none is found when no vendor name equals it |
| `User.StoreIndexById` | app/utils/functions/user.ts:77 | the store found for a points-map key is the first store with that id; none is found when no store has that id |
| `User.StoreByVendorName` | app/utils/functions/user.ts:27 | the store found for a description is the first of the stores with that vendor name; none is found exactly when no vendor name equals it |
| `User.StoreByIdSpec` | app/utils/functions/user.ts:77 | the store found for a points-map key (`User.StoreById`) is the first of the stores with that id; none is found exactly when no store has that id |
| `User.CurrentBalance` | app/utils/functions/user.ts:59 | a non-zero stored balance is the non-null balance of a points row for that store |
| `User.CurrentBalanceSpec` | app/utils/functions/user.ts:59 | the stored balance for a store is that of the user's first points row for it, 0 when that row's balance is null, and 0 when the user has no row for it |
| `User.Reducer` | app/utils/functions/user.ts:26-44 | a transaction no store matches leaves the accumulator unchanged; a matching one appends exactly one record, built from it as described for `User.RecordsOfMatched`, after the accumulator |
| `User.Reduce` | app/utils/functions/user.ts:46 | the fold keeps the accumulator as a prefix and adds at most one record per transaction |
| `User.CreateTransactionRecords` | app/utils/functions/user.ts:18-47 | never more records than transactions (the full contents are stated by `User.CreateTransactionRecordsSpec`) |
| `User.MatchedSpec` | app/utils/functions/user.ts:26-29 | the matched transactions are those input transactions for which some store's vendor name equals the description; there are at most as many as inputs |
| `User.ReducerAppends` | app/utils/functions/user.ts:34-43 | the reducer appends to any accumulator exactly what it appends to the empty one (the spread keeps the accumulator in front) |
| `User.ReduceIsRecords` | app/utils/functions/user.ts:46 | the left fold with spread-append equals the accumulator followed by the per-transaction records in input order |
| `User.RecordsOfMatched` | app/utils/functions/user.ts:32-43 | the i-th record is built from the i-th matched transaction: signed amount, posting date, user id, first matching store's id, and the absolute amount times that store's rate |
| `User.ConsRecordsOf` | app/utils/functions/user.ts:34-43 | prepending a transaction's record to records built pairwise keeps them pairwise built |
| `User.CreateTransactionRecordsSpec` | app/utils/functions/user.ts:18-47 | no transactions give no records; otherwise the records correspond one-to-one and in order to the matching transactions, with the contents above, and are never more than the inputs |
| `User.DistinctStoreIdsSpec` | app/utils/functions/user.ts:57-60 | the points-map keys have no duplicates and are exactly the store ids that occur among the new records |
| `User.DistinctStoreIdsPrefix` | app/utils/functions/user.ts:74 | the keys seen after any prefix of the records are a prefix of the final key order, so each store keeps the position of its first record |
| `User.UnseenStore` | app/utils/functions/user.ts:59-60 | a store with no record so far has balance 0, which is what the fallback to 0 for a missing map entry contributes |
| `User.TotalSpendAppend` | app/utils/functions/user.ts:62 | one more record adds its absolute amount to the total spend |
| `User.StoreBalanceClosedForm` | app/utils/functions/user.ts:58-61 | a store with k new records ends at k times the user's stored balance there plus the sum of those records' points |
| `User.BalancesStep` | app/utils/functions/user.ts:58-61 | one iteration of the loop keeps the points map and its key order equal to the specification for the records seen |
| `User.StoredBalanceRecounted` | app/utils/functions/user.ts:60 | with a stored balance of 100 and two new 5-point transactions at that store, the new balance is 210 |
| `User.TotalSpendNonNegative` | app/utils/functions/user.ts:56-62 | the total spend is never negative |
| `User.GlobalBalanceNeverDecreases` | app/utils/functions/user.ts:109-112 | the new global points balance is never below the old one |
| `User.ExistingRewardIds` | app/utils/functions/user.ts:72 | the reward type ids of the user's rewards, one per reward and in order; no result (the `TypeError`) exactly when some reward's reward type join is null |
| `User.RewardsForSpec` | app/utils/functions/user.ts:80-86 | a reward type id is earned at a balance exactly when a reward type of the store has that id, a cost strictly below the balance, and an id the user does not already hold |
| `User.EarnedRewardsSpec` | app/utils/functions/user.ts:74-89 | a reward type id is in the batch exactly when some emitted points record earns it: the reward type belongs to the store found for that record's id, the balance strictly exceeds its cost, and it is not already held; nothing is earned for a store id absent from the store data |
| `User.StampAppend` | app/utils/functions/user.ts:82-85 | stamping two batches one after the other gives the second batch the clock readings that follow those of the first |
| `User.TimestampsInCallOrder` | app/utils/functions/user.ts:82-113 | reward record j carries clock reading j, and `last_updated` carries the reading taken after all reward records |
| `User.AccumulateBalances` | app/utils/functions/user.ts:55-63 | the total spend is the sum of absolute amounts; the map's keys are exactly the distinct store ids in first-insertion order; each value is the store's balance under the recurrence of line 60 (k times the stored balance plus the new points, by `User.StoreBalanceClosedForm`) |
| `User.EarnRewards` | app/utils/functions/user.ts:80-87 | the inner loop emits, in reward-type order, a reward record for each reward type whose cost the balance strictly exceeds and whose id the user does not hold, each with the next clock reading; the count of readings grows by the number of records |
| `User.EarnedRewardsAppend` | app/utils/functions/user.ts:74-89 | one more map entry adds exactly that entry's rewards after those of the earlier entries |
| `User.StampedRewardsStep` | app/utils/functions/user.ts:74-89 | one entry of the `forEach` appends exactly that entry's reward records, stamped with the readings after those already taken |
| `User.EmitRecords` | app/utils/functions/user.ts:66-89 | exactly one points record (balance, store id) per map entry, in key order; the reward records are those the entries earn, in that order, stamped with clock readings 0, 1, ...; the number of readings taken equals the number of reward records |
| `User.PointsRecordsOfMap` | app/utils/functions/user.ts:74-75 | the points records read off the final map in key order are one per distinct store id, with that store's balance |
| `User.ProcessNewTransactions` | app/utils/functions/user.ts:49-125 | when some held reward's reward type join is null, the promise rejects and no write is issued; otherwise it issues the points upsert, the reward insert, the transaction insert and the user update with exactly the specified contents, the new global balance is the old one plus 10 points per unit of total spend, `last_updated` is the clock reading after the reward records', and the promise fulfils with the writes' outcome |
| `User.RefreshUserData` | app/utils/functions/user.ts:127-140 | with no new transactions it fulfils with false after the user fetch, with no store query and no write; otherwise it queries the stores and, when some held reward's join is null, rejects with no write; otherwise it reconciles the created records and fulfils with the writes' outcome |

## Left out

- Database client calls (`fetchUserData`, `fetchStoresByVendorName`, `upsertPointsRecords`, `insertRewardRecords`, `insertTransactions`, `updateUserRecord`): their code is not part of this model. Their results are parameters and their calls are recorded as effects.
- The upper-casing of descriptions sent to the store query (user.ts:133) is part of that external query and is not modelled. The `FetchStoresByVendorName` effect carries no arguments. The in-code match at line 27 is exact and is modelled exactly.
- `Promise.all` with its `.catch` (user.ts:119-124): the parallel wait is reduced to the parameter `writesSucceed`. The error log is left out. There is no compensation logic.
- The clock behind `new Date().toISOString()` (user.ts:84, 113) is the parameter `clock`. The model fixes the order of the readings but says nothing about the values; the ISO format is not modelled.
- The `!` on `transaction.points` and `transaction.amount` (user.ts:60, 62) never meets a null: the records come from `createTransactionRecords`, which always sets both (user.ts:37-39). A caller passing other records is not modelled.
- A rejection of `fetchUserData` or `fetchStoresByVendorName` (user.ts:128, 132) is not modelled: their results are parameters.
- `parseFloat` and IEEE-754 arithmetic: amounts, rates, points, costs and balances are mathematical reals. `|| 0` on a balance of 0 gives 0 in either reading, so the fallback is modelled as "0 when there is no row or its balance is null". A `NaN` balance, which `|| 0` also maps to 0, is not modelled.
- `redeemReward` (user.ts:142-164) is two sequential foreign calls with no computation of its own.
- The token and identity checks in the HTTP routes, and the React components, are outside the reconciliation core.
- The type of reward-type ids is taken to be a string, because the generated database types are not part of this model.

# Recent activity and statistics of the chest-staking front end

This project models the two pieces of read-side logic in the React front end of
a token-locking game ("chests"). Users lock tokens and later claim a payout. A
swap contract buys and sells the token.

- **Recent activity** (`loadRecentTransactions`). It reads the block height and
  queries the LockCreated, LockClaimed, TokensPurchased and TokensSold logs over
  the last 1000 blocks. It concatenates the four lists in that order and sorts
  them by block number, most recent first, with a stable sort. It keeps the
  first 50 and maps each one through a fixed table to a
  `{type, user, amount, blockNumber, txHash}` record. If any call throws, the
  previous list stays published. `loading` is false afterwards.
- **Statistics** (`loadStats`). It reads the chest contract's `activeLocked()`
  and `totalPaidOut()`. For a connected account it sums the amounts of the
  account's unclaimed lock positions. It also sums the payouts of the
  account's LockClaimed events over the last 50,000 blocks. An inner `catch`
  keeps whatever the two user sums hold when a user-specific call throws. An
  outer `catch` keeps the old figures when a global read throws.

Files:

- `chain.dfy` (module `Chain`) holds what the chain supplies:
  - amounts in base units, with `FormatEther` standing for `ethers.formatEther`
    as an exact split into whole tokens and a remainder below 10^18;
  - the block window;
  - the four events as one datatype;
  - a `LogQuery` and the `Node` snapshot. `Node` carries every RPC answer one
    load receives, and `None` stands for a call that throws.
- `feed.dfy` (module `ActivityFeed`) holds the pure feed pipeline: merge,
  stable sort, slice and map.
- `transactions.dfy` (module `Transactions`) holds the component state
  `transactions`/`loading` and the load method.
- `statistics.dfy` (module `Statistics`) holds the sums, what one load computes,
  and the component state `stats` with the load method and its two loops.

The sort is modelled as an insertion sort. Its stability is stated as "for
every block number k, the events of block k appear in the same order as in the
input" (`SameTies`). `StableSortUnique` shows that a newest-first sequence
with that property is unique. So any stable sort by the same comparator gives
the same feed.

The comparator `b.blockNumber - a.blockNumber` sorts blocks [5, 9, 9, 3] to
[9, 9, 5, 3], with the two 9s in input order (`ActivityFeed.SortExample`).

## Model

| member | source | states |
|---|---|---|
| Chain.FormatEther | Suresh/frontend/src/components/Statistics.jsx:66-69 | the rendered amount is exact: whole tokens times 10^18 plus a fraction below 10^18 gives back the base amount |
| Chain.FormatEtherInjective | Suresh/frontend/src/components/Transactions.jsx:54 | two base amounts render the same only if they are equal |
| Chain.FormatEtherOneToken | Suresh/frontend/src/components/Transactions.jsx:54 | 10^18 base units render as 1.0 |
| Chain.WindowStart | Suresh/frontend/src/components/Transactions.jsx:24-25 | `max(0, current - lookback)`: never above the current height, at most `lookback` below it, and shorter only when clamped at block 0 |
| Chain.WindowExamples | Suresh/frontend/src/components/Transactions.jsx:25 | height 500 gives window start 0; height 100000 gives 99000 |
| ActivityFeed.Normalize | Suresh/frontend/src/components/Transactions.jsx:48-76 | block number and tx hash are copied; the record determines its event (Restore inverts it), so lock/claim/buy/sell correspond to the four events, user to user/user/buyer/seller, and amount to amount/payout/amountOfTokens exactly |
| ActivityFeed.NormalizeAmount | Suresh/frontend/src/components/Transactions.jsx:51-67 | the record's amount is the event's own amount field (amount, payout, amountOfTokens) scaled by 10^18 |
| ActivityFeed.InsertSpec | Suresh/frontend/src/components/Transactions.jsx:45 | inserting into a newest-first list keeps it newest first, adds exactly that event, and puts it before the events of its own block already in the list |
| ActivityFeed.SortByBlockDescSpec | Suresh/frontend/src/components/Transactions.jsx:45 | the sort's result is newest first, is a permutation of its input, and keeps equal block numbers in input order |
| ActivityFeed.StableSortUnique | Suresh/frontend/src/components/Transactions.jsx:45 | two newest-first sequences whose events of every block appear in the same order are equal |
| ActivityFeed.SortByBlockDescIsTheStableSort | Suresh/frontend/src/components/Transactions.jsx:45 | every newest-first arrangement that keeps ties in input order equals the modelled sort |
| ActivityFeed.SortExample | Suresh/frontend/src/components/Transactions.jsx:44-45 | blocks [5, 9, 9, 3] sort to [9, 9, 5, 3] with the two 9s in input order |
| ActivityFeed.RecentEventsBounded | Suresh/frontend/src/components/Transactions.jsx:46 | the kept events number min(50, total), form a sub-multiset of the merged input, and are all of it when there are at most 50 |
| ActivityFeed.RecentEventsNewestFirst | Suresh/frontend/src/components/Transactions.jsx:45-46 | block numbers never increase along the kept events |
| ActivityFeed.RecentEventsKeepsMostRecent | Suresh/frontend/src/components/Transactions.jsx:44-46 | every dropped event has a block number no greater than every kept one |
| ActivityFeed.RecentEventsKeepTies | Suresh/frontend/src/components/Transactions.jsx:44-46 | for each block, the kept events of that block are the first events of that block in lock, claim, buy, sell order |
| ActivityFeed.FeedSpec | Suresh/frontend/src/components/Transactions.jsx:44-76 | the feed has at most 50 records, has every event when there are at most 50, is newest first, and its i-th record is made from the i-th kept event with block and hash unchanged |
| ActivityFeed.LoadFeedFails | Suresh/frontend/src/components/Transactions.jsx:24-41 | a load yields no feed exactly when the height read or one of the four queries fails |
| ActivityFeed.LoadFeedWithinWindow | Suresh/frontend/src/components/Transactions.jsx:24-41 | if the log source honours its filters, every record lies in [max(0, height - 1000), height] |
| Transactions.TransactionsState.constructor | Suresh/frontend/src/components/Transactions.jsx:8-9 | the feed starts empty and loading |
| Transactions.TransactionsState.LoadRecentTransactions | Suresh/frontend/src/components/Transactions.jsx:17-84 | publishes the feed of a successful load, keeps the old list otherwise, and leaves `loading` false |
| Statistics.Unclaimed | Suresh/frontend/src/components/Statistics.jsx:43 | holds exactly the positions with `claimed == false` |
| Statistics.UnclaimedCounts | Suresh/frontend/src/components/Statistics.jsx:42-46 | each unclaimed position is kept as many times as it occurs in the input, so equal positions are all summed; a claimed one occurs zero times |
| Statistics.UnclaimedTotalConcat | Suresh/frontend/src/components/Statistics.jsx:42-46 | the unclaimed sum is additive over concatenation |
| Statistics.UnclaimedTotalIsSumOfUnclaimed | Suresh/frontend/src/components/Statistics.jsx:42-46 | the loop's sum equals the plain sum of amounts over the unclaimed positions; claimed ones contribute nothing |
| Statistics.PayoutTotalConcat | Suresh/frontend/src/components/Statistics.jsx:57-59 | the payout sum is additive over concatenation |
| Statistics.NoAccountNoUserFigures | Suresh/frontend/src/components/Statistics.jsx:36-39 | with no account both user figures are 0 |
| Statistics.UserLocksFailure | Suresh/frontend/src/components/Statistics.jsx:40-41 | if getUserLocks throws, both user figures are 0 |
| Statistics.ClaimQueryFailure | Suresh/frontend/src/components/Statistics.jsx:50-62 | if getUserLocks succeeds but the height read or the claim query throws, userLocked is the full unclaimed sum and userPaidOut is 0 |
| Statistics.UserFiguresComplete | Suresh/frontend/src/components/Statistics.jsx:41-59 | if every call succeeds, userLocked is the unclaimed sum; userPaidOut is the payout sum over the returned events, all of them LockClaimed events of the account inside [max(0, height - 50000), height] |
| Statistics.StatisticsState.constructor | Suresh/frontend/src/components/Statistics.jsx:8-13 | all four figures start at zero |
| Statistics.StatisticsState.LoadStats | Suresh/frontend/src/components/Statistics.jsx:23-74 | if a global read throws, the figures stay unchanged; otherwise the globals are the two reads scaled directly and the user figures are what the inner block summed; the loops' invariants are partial sums over the processed prefix |

## Left out

- `Suresh/frontend/src/App.jsx` is not part of this model. It holds markup,
  modals, the clipboard, alerts and wallet listener wiring.
- RPC and ethers calls (`new ethers.Contract`, `queryFilter`,
  `getBlockNumber`, `getUserLocks`, `activeLocked`, `totalPaidOut`) are not
  executed. Their answers are inputs, collected in `Node`, and a call that
  throws is `None`. One load sees one snapshot. The model does not capture the
  height changing between calls of the same load, or a provider that answers
  the same query differently twice.
- `Statistics.StatisticsState.LoadStats` requires the log source to return only
  events its query selects (`HonoursFilters`). This is the topic filter's
  contract. The model does not cover a source that returns another event kind,
  where `BigInt(undefined)` would throw into the inner `catch`.
- `ethers.formatEther` string output is left out. Amounts are the exact value
  `Ether(whole, frac)`. The initial `'0'` strings and `formatEther(0n)`
  (`"0.0"`) are both the value zero here.
- Display formatting is left out: `parseFloat(...).toFixed`, address
  shortening and the Etherscan link. These are floating point or presentation.
- Scheduling is left out: `useEffect` re-runs, the 30-second `setInterval` and
  the `refreshTrigger` re-fetch. Each load is modelled as one method call.
  Interleaving of concurrent loads is not modelled.
- Event arguments the code never reads are not modelled (lock ids, times, ETH
  amounts).
- An event name outside the four is not modelled. The event type is closed, so
  the `undefined` type/user/amount branch cannot arise.
- Block numbers and amounts are unbounded naturals. The JavaScript `number`
  precision of `blockNumber` is not modelled.
- The code has no deduplication, no per-query degradation, no cycle
  numbering and no `lastUpdated` or status field, so the model has none of
  these either.

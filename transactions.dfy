/**
 * The Transactions component's state and its load of the recent-activity feed.
 */
module Transactions {
  import opened Chain
  import opened ActivityFeed

  class TransactionsState {
    /** The published feed. */
    var transactions: seq<TxRecord>
    /** True while a load is in progress. */
    var loading: bool

    /** `useState([])` and `useState(true)`. */
    constructor ()
      ensures transactions == [] && loading
    {
      transactions := [];
      loading := true;
    }

    /**
     * `loadRecentTransactions`: reads the height, queries the four event logs
     * over the last FEED_LOOKBACK blocks, publishes the feed, and keeps the
     * previous feed when any call throws. `loading` is false afterwards.
     */
    method LoadRecentTransactions(node: Node)
      modifies this
      ensures !loading
      ensures LoadFeed(node).Some? ==> transactions == LoadFeed(node).value
      ensures LoadFeed(node).None? ==> transactions == old(transactions)
    {
      loading := true;
      var currentBlock := node.blockNumber;
      if currentBlock.None? {
        loading := false;
        return;
      }
      var toBlock := currentBlock.value;
      var fromBlock := WindowStart(toBlock, FEED_LOOKBACK);
      var lockEvents := node.logs(LogQuery(LockCreatedSig, None, fromBlock, toBlock));
      if lockEvents.None? {
        loading := false;
        return;
      }
      var claimEvents := node.logs(LogQuery(LockClaimedSig, None, fromBlock, toBlock));
      if claimEvents.None? {
        loading := false;
        return;
      }
      var buyEvents := node.logs(LogQuery(TokensPurchasedSig, None, fromBlock, toBlock));
      if buyEvents.None? {
        loading := false;
        return;
      }
      var sellEvents := node.logs(LogQuery(TokensSoldSig, None, fromBlock, toBlock));
      if sellEvents.None? {
        loading := false;
        return;
      }
      var allEvents := RecentEvents(Merge(lockEvents.value, claimEvents.value, buyEvents.value, sellEvents.value));
      var txData := Records(allEvents);
      transactions := txData;
      loading := false;
    }
  }
}

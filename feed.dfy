/**
 * The recent-activity pipeline: the four event lists are concatenated, sorted
 * by block number with the most recent first (a stable sort), cut to the first
 * FEED_LIMIT entries and mapped to display records.
 */
module ActivityFeed {
  import opened Chain

  /** The feed scans this many blocks back from the current height. */
  const FEED_LOOKBACK: nat := 1000
  /** At most this many entries are shown. */
  const FEED_LIMIT: nat := 50

  /** The `type` of a record: 'lock', 'claim', 'buy' or 'sell'. */
  datatype Kind = Lock | Claim | Buy | Sell

  datatype TxRecord = TxRecord(kind: Kind, user: Address, amount: Ether, blockNumber: nat, txHash: TxHash)

  // ---------------------------------------------------------------------------
  // Event to record
  // ---------------------------------------------------------------------------

  /** The raw event a record stands for: the mapping table read backwards. */
  function Restore(r: TxRecord): RawEvent {
    match r.kind
    case Lock => LockCreated(r.user, ToBase(r.amount), r.blockNumber, r.txHash)
    case Claim => LockClaimed(r.user, ToBase(r.amount), r.blockNumber, r.txHash)
    case Buy => TokensPurchased(r.user, ToBase(r.amount), r.blockNumber, r.txHash)
    case Sell => TokensSold(r.user, ToBase(r.amount), r.blockNumber, r.txHash)
  }

  /**
   * The fixed four-way table. The record loses nothing: Restore gives back the
   * event, so lock/claim/buy/sell corresponds to LockCreated/LockClaimed/
   * TokensPurchased/TokensSold, the user to user/user/buyer/seller and the
   * amount, exactly, to amount/payout/amountOfTokens/amountOfTokens.
   */
  function Normalize(e: RawEvent): (r: TxRecord)
    ensures r.blockNumber == e.blockNumber && r.txHash == e.transactionHash
    ensures Restore(r) == e
  {
    match e
    case LockCreated(user, amount, bn, tx) => TxRecord(Lock, user, FormatEther(amount), bn, tx)
    case LockClaimed(user, payout, bn, tx) => TxRecord(Claim, user, FormatEther(payout), bn, tx)
    case TokensPurchased(buyer, tokens, bn, tx) => TxRecord(Buy, buyer, FormatEther(tokens), bn, tx)
    case TokensSold(seller, tokens, bn, tx) => TxRecord(Sell, seller, FormatEther(tokens), bn, tx)
  }

  /** The record's amount is the event's amount field scaled by 10^18. */
  lemma NormalizeAmount(e: RawEvent)
    ensures ToBase(Normalize(e).amount) == match e
      case LockCreated(_, amount, _, _) => amount
      case LockClaimed(_, payout, _, _) => payout
      case TokensPurchased(_, tokens, _, _) => tokens
      case TokensSold(_, tokens, _, _) => tokens
  {
  }

  /** Array.prototype.map with Normalize. */
  function Records(s: seq<RawEvent>): seq<TxRecord> {
    seq(|s|, i requires 0 <= i < |s| => Normalize(s[i]))
  }

  // ---------------------------------------------------------------------------
  // Stable sort by block number, most recent first
  // ---------------------------------------------------------------------------

  predicate NewestFirst(s: seq<RawEvent>) {
    forall i, j :: 0 <= i < j < |s| ==> s[i].blockNumber >= s[j].blockNumber
  }

  /** The events of block `k`, in the order they appear in `s`. */
  function WithBlock(s: seq<RawEvent>, k: nat): seq<RawEvent> {
    if s == [] then []
    else (if s[0].blockNumber == k then [s[0]] else []) + WithBlock(s[1..], k)
  }

  /** Equal block numbers keep their relative order from `s` in `r`. */
  ghost predicate SameTies(r: seq<RawEvent>, s: seq<RawEvent>) {
    forall k :: WithBlock(r, k) == WithBlock(s, k)
  }

  /** Inserts `x` in front of every event at its block or older. */
  function Insert(x: RawEvent, s: seq<RawEvent>): seq<RawEvent> {
    if s == [] || s[0].blockNumber <= x.blockNumber then [x] + s
    else [s[0]] + Insert(x, s[1..])
  }

  /**
   * `events.sort((a, b) => b.blockNumber - a.blockNumber)`; the sort is stable,
   * as ECMA-262 requires of Array.prototype.sort.
   */
  function SortByBlockDesc(s: seq<RawEvent>): seq<RawEvent> {
    if s == [] then [] else Insert(s[0], SortByBlockDesc(s[1..]))
  }

  lemma {:induction false} WithBlockConcat(a: seq<RawEvent>, b: seq<RawEvent>, k: nat)
    ensures WithBlock(a + b, k) == WithBlock(a, k) + WithBlock(b, k)
  {
    if a == [] {
      assert a + b == b;
    } else {
      assert (a + b)[1..] == a[1..] + b;
      WithBlockConcat(a[1..], b, k);
    }
  }

  lemma {:induction false} InsertPermutation(x: RawEvent, s: seq<RawEvent>)
    ensures multiset(Insert(x, s)) == multiset(s) + multiset{x}
  {
    if s != [] && s[0].blockNumber > x.blockNumber {
      InsertPermutation(x, s[1..]);
      assert s == [s[0]] + s[1..];
    }
  }

  lemma {:induction false} InsertNewestFirst(x: RawEvent, s: seq<RawEvent>)
    requires NewestFirst(s)
    ensures NewestFirst(Insert(x, s))
  {
    if s != [] && s[0].blockNumber > x.blockNumber {
      var t := Insert(x, s[1..]);
      InsertNewestFirst(x, s[1..]);
      InsertPermutation(x, s[1..]);
      forall y | y in t
        ensures y.blockNumber <= s[0].blockNumber
      {
        assert y in multiset(t);
        assert y == x || y in multiset(s[1..]);
      }
      assert Insert(x, s) == [s[0]] + t;
    }
  }

  lemma {:induction false} InsertTies(x: RawEvent, s: seq<RawEvent>)
    ensures SameTies(Insert(x, s), [x] + s)
  {
    if s != [] && s[0].blockNumber > x.blockNumber {
      var t := Insert(x, s[1..]);
      InsertTies(x, s[1..]);
      assert s == [s[0]] + s[1..];
      assert Insert(x, s) == [s[0]] + t;
      forall k: nat
        ensures WithBlock([s[0]] + t, k) == WithBlock([x] + s, k)
      {
        WithBlockConcat([s[0]], t, k);
        WithBlockConcat([x], s[1..], k);
        WithBlockConcat([x], s, k);
        WithBlockConcat([s[0]], s[1..], k);
      }
    }
  }

  lemma InsertSpec(x: RawEvent, s: seq<RawEvent>)
    requires NewestFirst(s)
    ensures NewestFirst(Insert(x, s))
    ensures multiset(Insert(x, s)) == multiset(s) + multiset{x}
    ensures SameTies(Insert(x, s), [x] + s)
  {
    InsertPermutation(x, s);
    InsertNewestFirst(x, s);
    InsertTies(x, s);
  }

  /** The sort's result is newest first, a permutation of its input, and stable. */
  lemma {:induction false} SortByBlockDescSpec(s: seq<RawEvent>)
    ensures NewestFirst(SortByBlockDesc(s))
    ensures multiset(SortByBlockDesc(s)) == multiset(s)
    ensures SameTies(SortByBlockDesc(s), s)
  {
    if s != [] {
      var t := SortByBlockDesc(s[1..]);
      SortByBlockDescSpec(s[1..]);
      InsertSpec(s[0], t);
      assert s == [s[0]] + s[1..];
      forall k: nat
        ensures WithBlock(SortByBlockDesc(s), k) == WithBlock(s, k)
      {
        WithBlockConcat([s[0]], t, k);
        WithBlockConcat([s[0]], s[1..], k);
      }
    }
  }

  lemma {:induction false} WithBlockMember(s: seq<RawEvent>, k: nat, y: RawEvent)
    requires y in WithBlock(s, k)
    ensures y in s && y.blockNumber == k
  {
    if s != [] && !(s[0].blockNumber == k && y == s[0]) {
      assert y in WithBlock(s[1..], k);
      WithBlockMember(s[1..], k, y);
    }
  }

  lemma {:induction false} StableSortUniqueStep(a: seq<RawEvent>, b: seq<RawEvent>)
    requires NewestFirst(a) && NewestFirst(b) && SameTies(a, b) && a != []
    ensures b != [] && b[0].blockNumber >= a[0].blockNumber
  {
    var k := a[0].blockNumber;
    assert a[0] in WithBlock(a, k);
    WithBlockMember(b, k, a[0]);
    var j :| 0 <= j < |b| && b[j] == a[0];
  }

  /**
   * The ECMA-262 stable sort is determined by its output's properties: two
   * newest-first sequences with the same ties are equal.
   */
  lemma {:induction false} StableSortUnique(a: seq<RawEvent>, b: seq<RawEvent>)
    requires NewestFirst(a) && NewestFirst(b) && SameTies(a, b)
    ensures a == b
    decreases |a|
  {
    if a == [] {
      if b != [] {
        StableSortUniqueStep(b, a);
      }
    } else {
      StableSortUniqueStep(a, b);
      StableSortUniqueStep(b, a);
      var m := a[0].blockNumber;
      assert WithBlock(a, m)[0] == a[0];
      assert WithBlock(b, m)[0] == b[0];
      assert a[0] == b[0];
      forall k: nat
        ensures WithBlock(a[1..], k) == WithBlock(b[1..], k)
      {
        var head := if m == k then [a[0]] else [];
        assert WithBlock(a, k) == head + WithBlock(a[1..], k);
        assert WithBlock(b, k) == head + WithBlock(b[1..], k);
        assert WithBlock(a[1..], k) == (head + WithBlock(a[1..], k))[|head|..];
        assert WithBlock(b[1..], k) == (head + WithBlock(b[1..], k))[|head|..];
      }
      StableSortUnique(a[1..], b[1..]);
      assert a == [a[0]] + a[1..] && b == [b[0]] + b[1..];
    }
  }

  /** Any newest-first rearrangement that keeps ties in order is what the sort returns. */
  lemma SortByBlockDescIsTheStableSort(s: seq<RawEvent>, r: seq<RawEvent>)
    requires NewestFirst(r) && SameTies(r, s)
    ensures r == SortByBlockDesc(s)
  {
    SortByBlockDescSpec(s);
    StableSortUnique(r, SortByBlockDesc(s));
  }

  // ---------------------------------------------------------------------------
  // Merge, sort, truncate
  // ---------------------------------------------------------------------------

  /** The four lists in the order they are spread into one array. */
  function Merge(lock: seq<RawEvent>, claim: seq<RawEvent>, buy: seq<RawEvent>, sell: seq<RawEvent>): seq<RawEvent> {
    lock + claim + buy + sell
  }

  /** `slice(0, n)`: the first n entries, or all of them when there are fewer. */
  function Take(s: seq<RawEvent>, n: nat): seq<RawEvent> {
    if |s| <= n then s else s[..n]
  }

  /** The sorted events that survive the slice. */
  function RecentEvents(all: seq<RawEvent>): seq<RawEvent> {
    Take(SortByBlockDesc(all), FEED_LIMIT)
  }

  /** At most FEED_LIMIT entries; every event when there are no more than that. */
  lemma RecentEventsBounded(all: seq<RawEvent>)
    ensures |RecentEvents(all)| == if |all| <= FEED_LIMIT then |all| else FEED_LIMIT
    ensures multiset(RecentEvents(all)) <= multiset(all)
    ensures |all| <= FEED_LIMIT ==> multiset(RecentEvents(all)) == multiset(all)
  {
    SortByBlockDescSpec(all);
    var sorted := SortByBlockDesc(all);
    assert |sorted| == |all| by {
      assert |multiset(sorted)| == |multiset(all)|;
    }
    if |sorted| > FEED_LIMIT {
      assert sorted == sorted[..FEED_LIMIT] + sorted[FEED_LIMIT..];
      assert multiset(sorted) == multiset(sorted[..FEED_LIMIT]) + multiset(sorted[FEED_LIMIT..]);
    }
  }

  /** Block numbers never increase along the kept events. */
  lemma RecentEventsNewestFirst(all: seq<RawEvent>)
    ensures NewestFirst(RecentEvents(all))
  {
    SortByBlockDescSpec(all);
  }

  /** Truncation drops only events no more recent than every kept event. */
  lemma RecentEventsKeepsMostRecent(all: seq<RawEvent>)
    ensures forall e, f :: e in multiset(all) - multiset(RecentEvents(all)) && f in RecentEvents(all)
              ==> e.blockNumber <= f.blockNumber
  {
    SortByBlockDescSpec(all);
    var sorted := SortByBlockDesc(all);
    var kept := RecentEvents(all);
    if |sorted| > FEED_LIMIT {
      var dropped := sorted[FEED_LIMIT..];
      assert sorted == kept + dropped;
      assert multiset(all) == multiset(kept) + multiset(dropped);
      forall e, f | e in multiset(all) - multiset(kept) && f in kept
        ensures e.blockNumber <= f.blockNumber
      {
        assert e in multiset(dropped);
        var j :| 0 <= j < |dropped| && dropped[j] == e;
        var i :| 0 <= i < |kept| && kept[i] == f;
        assert sorted[i] == f && sorted[FEED_LIMIT + j] == e;
      }
    }
  }

  predicate IsPrefix(p: seq<RawEvent>, s: seq<RawEvent>) {
    |p| <= |s| && p == s[..|p|]
  }

  /**
   * Events of one block keep their concatenation order: the kept ones are the
   * first of that block's events in the input.
   */
  lemma RecentEventsKeepTies(all: seq<RawEvent>)
    ensures forall k :: IsPrefix(WithBlock(RecentEvents(all), k), WithBlock(all, k))
  {
    SortByBlockDescSpec(all);
    var sorted := SortByBlockDesc(all);
    var kept := RecentEvents(all);
    forall k: nat
      ensures IsPrefix(WithBlock(kept, k), WithBlock(all, k))
    {
      if |sorted| > FEED_LIMIT {
        assert sorted == kept + sorted[FEED_LIMIT..];
        WithBlockConcat(kept, sorted[FEED_LIMIT..], k);
      }
    }
  }

  /** Blocks [5, 9, 9, 3] come out as [9, 9, 5, 3], the two 9s in input order. */
  lemma SortExample(a: RawEvent, b: RawEvent, c: RawEvent, d: RawEvent)
    requires a.blockNumber == 5 && b.blockNumber == 9 && c.blockNumber == 9 && d.blockNumber == 3
    ensures SortByBlockDesc([a, b, c, d]) == [b, c, a, d]
  {
    assert [a, b, c, d][1..] == [b, c, d];
    assert [b, c, d][1..] == [c, d];
    assert [c, d][1..] == [d];
    assert SortByBlockDesc([d]) == [d];
    assert SortByBlockDesc([c, d]) == [c, d];
    assert SortByBlockDesc([b, c, d]) == [b, c, d];
    assert Insert(a, [d]) == [a, d];
    assert Insert(a, [c, d]) == [c, a, d];
  }

  // ---------------------------------------------------------------------------
  // The feed
  // ---------------------------------------------------------------------------

  /** The list `loadRecentTransactions` publishes for the four query results. */
  function Feed(lock: seq<RawEvent>, claim: seq<RawEvent>, buy: seq<RawEvent>, sell: seq<RawEvent>): seq<TxRecord> {
    Records(RecentEvents(Merge(lock, claim, buy, sell)))
  }

  /**
   * The i-th record is made from the i-th kept event, block number and
   * transaction hash unchanged; the feed is bounded and newest first.
   */
  lemma FeedSpec(lock: seq<RawEvent>, claim: seq<RawEvent>, buy: seq<RawEvent>, sell: seq<RawEvent>)
    ensures var feed, recent := Feed(lock, claim, buy, sell), RecentEvents(Merge(lock, claim, buy, sell));
      && |feed| == |recent| <= FEED_LIMIT
      && (|lock| + |claim| + |buy| + |sell| <= FEED_LIMIT ==> |feed| == |lock| + |claim| + |buy| + |sell|)
      && (forall i :: 0 <= i < |feed| ==>
            Restore(feed[i]) == recent[i]
            && feed[i].blockNumber == recent[i].blockNumber
            && feed[i].txHash == recent[i].transactionHash)
      && (forall i, j :: 0 <= i < j < |feed| ==> feed[i].blockNumber >= feed[j].blockNumber)
  {
    var all := Merge(lock, claim, buy, sell);
    RecentEventsBounded(all);
    RecentEventsNewestFirst(all);
  }

  // ---------------------------------------------------------------------------
  // One load against the node
  // ---------------------------------------------------------------------------

  /** The unfiltered query for one signature over the feed's window. */
  function FeedQuery(sig: Signature, current: nat): LogQuery {
    LogQuery(sig, None, WindowStart(current, FEED_LOOKBACK), current)
  }

  /** The feed one load produces, or None when any call throws. */
  function LoadFeed(node: Node): Option<seq<TxRecord>> {
    match node.blockNumber
    case None => None
    case Some(current) =>
      var lock := node.logs(FeedQuery(LockCreatedSig, current));
      var claim := node.logs(FeedQuery(LockClaimedSig, current));
      var buy := node.logs(FeedQuery(TokensPurchasedSig, current));
      var sell := node.logs(FeedQuery(TokensSoldSig, current));
      if lock.None? || claim.None? || buy.None? || sell.None? then None
      else Some(Feed(lock.value, claim.value, buy.value, sell.value))
  }

  /** A load fails exactly when the block height or one of the four queries fails. */
  lemma LoadFeedFails(node: Node)
    ensures LoadFeed(node).None? <==>
      node.blockNumber.None? ||
      exists sig :: node.logs(FeedQuery(sig, node.blockNumber.value)).None?
  {
    if node.blockNumber.Some? {
      var current := node.blockNumber.value;
      if exists sig :: node.logs(FeedQuery(sig, current)).None? {
        var sig :| node.logs(FeedQuery(sig, current)).None?;
        match sig
        case LockCreatedSig =>
        case LockClaimedSig =>
        case TokensPurchasedSig =>
        case TokensSoldSig =>
      }
    }
  }

  lemma MergeMember(lock: seq<RawEvent>, claim: seq<RawEvent>, buy: seq<RawEvent>, sell: seq<RawEvent>, e: RawEvent)
    requires e in multiset(Merge(lock, claim, buy, sell))
    ensures e in lock || e in claim || e in buy || e in sell
  {
  }

  /**
   * When the log source honours its filters, every record of a successful load
   * lies in the window [max(0, height - 1000), height].
   */
  lemma LoadFeedWithinWindow(node: Node)
    requires HonoursFilters(node)
    requires LoadFeed(node).Some?
    ensures forall r :: r in LoadFeed(node).value ==>
      WindowStart(node.blockNumber.value, FEED_LOOKBACK) <= r.blockNumber <= node.blockNumber.value
  {
    var current := node.blockNumber.value;
    var lock := node.logs(FeedQuery(LockCreatedSig, current)).value;
    var claim := node.logs(FeedQuery(LockClaimedSig, current)).value;
    var buy := node.logs(FeedQuery(TokensPurchasedSig, current)).value;
    var sell := node.logs(FeedQuery(TokensSoldSig, current)).value;
    var all := Merge(lock, claim, buy, sell);
    var feed := LoadFeed(node).value;
    assert feed == Feed(lock, claim, buy, sell);
    FeedSpec(lock, claim, buy, sell);
    RecentEventsBounded(all);
    forall r | r in feed
      ensures WindowStart(current, FEED_LOOKBACK) <= r.blockNumber <= current
    {
      var i :| 0 <= i < |feed| && feed[i] == r;
      var e := RecentEvents(all)[i];
      assert e in multiset(all);
      MergeMember(lock, claim, buy, sell, e);
      var sig :| node.logs(FeedQuery(sig, current)).Some? && e in node.logs(FeedQuery(sig, current)).value;
      assert Matches(e, FeedQuery(sig, current));
    }
  }
}

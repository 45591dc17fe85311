/**
 * The Statistics component: two global figures read from the chest contract
 * and two figures for the connected account, summed on the client.
 */
module Statistics {
  import opened Chain

  /** The user's payouts are looked up this many blocks back from the current height. */
  const CLAIM_LOOKBACK: nat := 50000

  /** The published figures, each a formatEther value. */
  datatype Stats = Stats(totalLocked: Ether, totalPaidOut: Ether, userLocked: Ether, userPaidOut: Ether)

  // ---------------------------------------------------------------------------
  // Sums
  // ---------------------------------------------------------------------------

  /** What the lock loop accumulates: the amounts of the positions not yet claimed. */
  function UnclaimedTotal(locks: seq<LockPosition>): nat {
    if locks == [] then 0
    else
      var last := locks[|locks| - 1];
      UnclaimedTotal(locks[..|locks| - 1]) + (if last.claimed then 0 else last.amount)
  }

  /** The positions not yet claimed, in order. */
  function Unclaimed(locks: seq<LockPosition>): (r: seq<LockPosition>)
    ensures forall p :: p in r ==> p in locks && !p.claimed
    ensures forall p :: p in locks && !p.claimed ==> p in r
  {
    if locks == [] then []
    else (if locks[0].claimed then [] else [locks[0]]) + Unclaimed(locks[1..])
  }

  /** Each unclaimed position is kept as many times as it occurs; claimed ones never. */
  lemma {:induction false} UnclaimedCounts(locks: seq<LockPosition>, p: LockPosition)
    ensures multiset(Unclaimed(locks))[p] == if p.claimed then 0 else multiset(locks)[p]
  {
    if locks != [] {
      UnclaimedCounts(locks[1..], p);
      assert locks == [locks[0]] + locks[1..];
    }
  }

  /** The sum of all amounts. */
  function AmountTotal(locks: seq<LockPosition>): nat {
    if locks == [] then 0 else locks[0].amount + AmountTotal(locks[1..])
  }

  lemma {:induction false} UnclaimedTotalConcat(a: seq<LockPosition>, b: seq<LockPosition>)
    ensures UnclaimedTotal(a + b) == UnclaimedTotal(a) + UnclaimedTotal(b)
    decreases |b|
  {
    if b == [] {
      assert a + b == a;
    } else {
      var n := |b| - 1;
      assert (a + b)[..|a + b| - 1] == a + b[..n];
      assert (a + b)[|a + b| - 1] == b[n];
      UnclaimedTotalConcat(a, b[..n]);
    }
  }

  /** The loop's total is the plain sum over the unclaimed positions: claimed ones add nothing. */
  lemma {:induction false} UnclaimedTotalIsSumOfUnclaimed(locks: seq<LockPosition>)
    ensures UnclaimedTotal(locks) == AmountTotal(Unclaimed(locks))
  {
    if locks != [] {
      UnclaimedTotalIsSumOfUnclaimed(locks[1..]);
      assert locks == [locks[0]] + locks[1..];
      UnclaimedTotalConcat([locks[0]], locks[1..]);
      assert UnclaimedTotal([locks[0]]) == (if locks[0].claimed then 0 else locks[0].amount) by {
        assert [locks[0]][..0] == [];
      }
      var rest := Unclaimed(locks[1..]);
      if locks[0].claimed {
        assert Unclaimed(locks) == [] + rest == rest;
      } else {
        assert Unclaimed(locks) == [locks[0]] + rest;
        assert ([locks[0]] + rest)[1..] == rest;
      }
    }
  }

  predicate AllClaims(events: seq<RawEvent>) {
    forall e :: e in events ==> e.LockClaimed?
  }

  /** What the claim loop accumulates: the sum of the payouts. */
  function PayoutTotal(events: seq<RawEvent>): nat
    requires AllClaims(events)
  {
    if events == [] then 0
    else
      var n := |events| - 1;
      assert forall e :: e in events[..n] ==> e in events;
      PayoutTotal(events[..n]) + events[n].payout
  }

  lemma {:induction false} PayoutTotalConcat(a: seq<RawEvent>, b: seq<RawEvent>)
    requires AllClaims(a) && AllClaims(b)
    ensures AllClaims(a + b)
    ensures PayoutTotal(a + b) == PayoutTotal(a) + PayoutTotal(b)
    decreases |b|
  {
    if b == [] {
      assert a + b == a;
    } else {
      var n := |b| - 1;
      assert forall e :: e in b[..n] ==> e in b;
      assert (a + b)[..|a + b| - 1] == a + b[..n];
      assert (a + b)[|a + b| - 1] == b[n];
      PayoutTotalConcat(a, b[..n]);
    }
  }

  // ---------------------------------------------------------------------------
  // What one load computes
  // ---------------------------------------------------------------------------

  /** The LockClaimed query for `account` over the last CLAIM_LOOKBACK blocks. */
  function ClaimQuery(account: Address, current: nat): LogQuery {
    LogQuery(LockClaimedSig, Some(account), WindowStart(current, CLAIM_LOOKBACK), current)
  }

  /** The account's claim events, when the height read and the query both succeed. */
  function ClaimEvents(account: Address, node: Node): Option<seq<RawEvent>> {
    match node.blockNumber
    case None => None
    case Some(current) => node.logs(ClaimQuery(account, current))
  }

  /** `userLocked` once the inner try block has run or been abandoned. */
  function UserLocked(account: Option<Address>, node: Node): nat {
    match account
    case None => 0
    case Some(a) =>
      match node.userLocks(a)
      case None => 0
      case Some(locks) => UnclaimedTotal(locks)
  }

  /** `userPaidOut` once the inner try block has run or been abandoned. */
  function UserPaidOut(account: Option<Address>, node: Node): nat
    requires HonoursFilters(node)
  {
    match account
    case None => 0
    case Some(a) =>
      if node.userLocks(a).None? then 0
      else match ClaimEvents(a, node)
        case None => 0
        case Some(events) =>
          assert forall e :: e in events ==> Matches(e, ClaimQuery(a, node.blockNumber.value));
          PayoutTotal(events)
  }

  /** With no account both user figures are zero. */
  lemma NoAccountNoUserFigures(node: Node)
    requires HonoursFilters(node)
    ensures UserLocked(None, node) == 0 && UserPaidOut(None, node) == 0
  {
  }

  /** A failed getUserLocks leaves both user figures at zero. */
  lemma UserLocksFailure(account: Address, node: Node)
    requires HonoursFilters(node)
    requires node.userLocks(account).None?
    ensures UserLocked(Some(account), node) == 0 && UserPaidOut(Some(account), node) == 0
  {
  }

  /**
   * When getUserLocks succeeds but the height read or the claim query fails,
   * the locked figure is complete and the paid-out figure is zero.
   */
  lemma ClaimQueryFailure(account: Address, node: Node)
    requires HonoursFilters(node)
    requires node.userLocks(account).Some? && ClaimEvents(account, node).None?
    ensures UserLocked(Some(account), node) == AmountTotal(Unclaimed(node.userLocks(account).value))
    ensures UserPaidOut(Some(account), node) == 0
  {
    UnclaimedTotalIsSumOfUnclaimed(node.userLocks(account).value);
  }

  /**
   * When every call succeeds, the user figures are the unclaimed amounts and
   * the payouts of the account's own LockClaimed events inside the window.
   */
  lemma UserFiguresComplete(account: Address, node: Node)
    requires HonoursFilters(node)
    requires node.userLocks(account).Some? && ClaimEvents(account, node).Some?
    ensures UserLocked(Some(account), node) == AmountTotal(Unclaimed(node.userLocks(account).value))
    ensures var events := ClaimEvents(account, node).value;
      && (forall e :: e in events ==>
            e.LockClaimed? && e.user == account
            && WindowStart(node.blockNumber.value, CLAIM_LOOKBACK) <= e.blockNumber <= node.blockNumber.value)
      && AllClaims(events)
      && UserPaidOut(Some(account), node) == PayoutTotal(events)
  {
    UnclaimedTotalIsSumOfUnclaimed(node.userLocks(account).value);
    var events := ClaimEvents(account, node).value;
    forall e | e in events
      ensures e.LockClaimed? && e.user == account
      ensures WindowStart(node.blockNumber.value, CLAIM_LOOKBACK) <= e.blockNumber <= node.blockNumber.value
    {
      assert Matches(e, ClaimQuery(account, node.blockNumber.value));
    }
  }

  // ---------------------------------------------------------------------------
  // The component
  // ---------------------------------------------------------------------------

  class StatisticsState {
    /** The published figures. */
    var stats: Stats

    /** `useState` with every figure '0'. */
    constructor ()
      ensures stats == Stats(Ether(0, 0), Ether(0, 0), Ether(0, 0), Ether(0, 0))
    {
      stats := Stats(Ether(0, 0), Ether(0, 0), Ether(0, 0), Ether(0, 0));
    }

    /**
     * `loadStats`: when both global reads succeed the four figures are
     * replaced, the user figures holding whatever the inner try block had
     * summed before it finished or threw; when either global read throws the
     * old figures stay.
     */
    method LoadStats(account: Option<Address>, node: Node)
      requires HonoursFilters(node)
      modifies this
      ensures node.activeLocked.None? || node.totalPaidOut.None? ==> stats == old(stats)
      ensures node.activeLocked.Some? && node.totalPaidOut.Some? ==>
        stats == Stats(FormatEther(node.activeLocked.value), FormatEther(node.totalPaidOut.value),
                       FormatEther(UserLocked(account, node)), FormatEther(UserPaidOut(account, node)))
    {
      if node.activeLocked.None? || node.totalPaidOut.None? {
        return;
      }
      var activeLocked, totalPaidOut := node.activeLocked.value, node.totalPaidOut.value;
      var userLocked: nat := 0;
      var userPaidOut: nat := 0;
      if account.Some? {
        var userLocks := node.userLocks(account.value);
        if userLocks.Some? {
          var locks := userLocks.value;
          var i := 0;
          while i < |locks|
            invariant 0 <= i <= |locks|
            invariant userLocked == UnclaimedTotal(locks[..i])
          {
            assert locks[..i + 1][..i] == locks[..i];
            if !locks[i].claimed {
              userLocked := userLocked + locks[i].amount;
            }
            i := i + 1;
          }
          assert locks[..|locks|] == locks;
          var currentBlock := node.blockNumber;
          if currentBlock.Some? {
            var fromBlock := WindowStart(currentBlock.value, CLAIM_LOOKBACK);
            var claimEvents := node.logs(LogQuery(LockClaimedSig, account, fromBlock, currentBlock.value));
            if claimEvents.Some? {
              var events := claimEvents.value;
              assert AllClaims(events) by {
                forall e | e in events ensures e.LockClaimed? {
                  assert Matches(e, ClaimQuery(account.value, currentBlock.value));
                }
              }
              var j := 0;
              while j < |events|
                invariant 0 <= j <= |events|
                invariant AllClaims(events[..j])
                invariant userPaidOut == PayoutTotal(events[..j])
              {
                assert events[..j + 1][..j] == events[..j];
                assert events[j] in events;
                userPaidOut := userPaidOut + events[j].payout;
                j := j + 1;
              }
              assert events[..|events|] == events;
            }
          }
        }
      }
      stats := Stats(FormatEther(activeLocked), FormatEther(totalPaidOut),
                     FormatEther(userLocked), FormatEther(userPaidOut));
    }
  }
}

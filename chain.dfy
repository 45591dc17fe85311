/**
 * What the front end reads from the chain: token amounts in base units and
 * their decimal rendering, block windows, the four event logs of the chest and
 * swap contracts, and a snapshot of every RPC answer one refresh receives.
 */
module Chain {

  datatype Option<+T> = None | Some(value: T)

  type Address = string
  type TxHash = string

  /** Base units in one whole token: the token has 18 decimals. */
  const WEI_PER_TOKEN: nat := 1_000_000_000_000_000_000

  /**
   * The decimal value that ethers.formatEther renders: `whole` tokens plus
   * `frac` base units (the digits after the decimal point).
   */
  datatype Ether = Ether(whole: nat, frac: nat)

  /** The number of base units an Ether value stands for. */
  function ToBase(e: Ether): nat {
    e.whole * WEI_PER_TOKEN + e.frac
  }

  /** Scaling by 10^18, exactly: the fraction is below one token and nothing is lost. */
  function FormatEther(base: nat): (e: Ether)
    ensures e.frac < WEI_PER_TOKEN
    ensures ToBase(e) == base
  {
    Ether(base / WEI_PER_TOKEN, base % WEI_PER_TOKEN)
  }

  /** Two amounts render the same only when they are the same amount. */
  lemma FormatEtherInjective(a: nat, b: nat)
    requires FormatEther(a) == FormatEther(b)
    ensures a == b
  {
  }

  /** One token in base units renders as 1.0. */
  lemma FormatEtherOneToken()
    ensures FormatEther(WEI_PER_TOKEN) == Ether(1, 0)
  {
  }

  /**
   * First block of a window of `lookback` blocks ending at `current`,
   * clamped at the genesis block.
   */
  function WindowStart(current: nat, lookback: nat): (from: nat)
    ensures from <= current
    ensures current - from <= lookback
    ensures from == 0 || current - from == lookback
  {
    if current >= lookback then current - lookback else 0
  }

  lemma WindowExamples()
    ensures WindowStart(500, 1000) == 0
    ensures WindowStart(100000, 1000) == 99000
  {
  }

  /**
   * A decoded event log. Each constructor carries the arguments the front end
   * reads, the block it was mined in and its transaction hash.
   */
  datatype RawEvent =
    | LockCreated(user: Address, amount: nat, blockNumber: nat, transactionHash: TxHash)
    | LockClaimed(user: Address, payout: nat, blockNumber: nat, transactionHash: TxHash)
    | TokensPurchased(buyer: Address, amountOfTokens: nat, blockNumber: nat, transactionHash: TxHash)
    | TokensSold(seller: Address, amountOfTokens: nat, blockNumber: nat, transactionHash: TxHash)

  /** The event signatures a filter can select. */
  datatype Signature = LockCreatedSig | LockClaimedSig | TokensPurchasedSig | TokensSoldSig

  function SignatureOf(e: RawEvent): Signature {
    match e
    case LockCreated(_, _, _, _) => LockCreatedSig
    case LockClaimed(_, _, _, _) => LockClaimedSig
    case TokensPurchased(_, _, _, _) => TokensPurchasedSig
    case TokensSold(_, _, _, _) => TokensSoldSig
  }

  /** A queryFilter call: one signature, an optional indexed `user`, an inclusive block range. */
  datatype LogQuery = LogQuery(signature: Signature, user: Option<Address>, fromBlock: nat, toBlock: nat)

  /** The event is one the query selects. */
  predicate Matches(e: RawEvent, q: LogQuery) {
    && SignatureOf(e) == q.signature
    && q.fromBlock <= e.blockNumber <= q.toBlock
    && (q.user.Some? ==> (e.LockCreated? || e.LockClaimed?) && e.user == q.user.value)
  }

  /** A position returned by the chest contract's getUserLocks. */
  datatype LockPosition = LockPosition(amount: nat, claimed: bool)

  /**
   * The answers the node gives during one refresh; None stands for a call
   * that throws. `userLocks` and `logs` answer per argument.
   */
  datatype Node = Node(
    blockNumber: Option<nat>,
    activeLocked: Option<nat>,
    totalPaidOut: Option<nat>,
    userLocks: Address -> Option<seq<LockPosition>>,
    logs: LogQuery -> Option<seq<RawEvent>>)

  /** The log source returns only events its query selects. */
  ghost predicate HonoursFilters(node: Node) {
    forall q, e :: node.logs(q).Some? && e in node.logs(q).value ==> Matches(e, q)
  }
}

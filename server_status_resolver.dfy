/**
 * The rollup server's status resolver (falafel/src/resolver/server_status_resolver.ts): the
 * constant status snapshot it answers `serverStatus` with, and its estimate of when the next
 * rollup will be published. Times are integer milliseconds since the epoch; the repository
 * lookups become optional inputs and the clock becomes the parameter `now`.
 */
module ServerStatusResolver {
  import opened Wrappers

  /** The mean time between transactions, 30 minutes. */
  const AvgNewTxTime: int := 30 * 60 * 1000
  /** The mean time to build a rollup proof, 30 seconds. */
  const AvgProofTime: int := 30 * 1000
  /** The mean time for a published rollup to settle on chain, 60 seconds. */
  const AvgSettleTime: int := 60 * 1000

  /**
   * The creation times the estimate looks up: the oldest rollup still being created, the
   * oldest published (not yet settled) rollup, the oldest transaction not in any rollup and
   * the latest transaction; `None` when there is no such record.
   */
  datatype PublishQueries = PublishQueries(
    oldestCreatingRollup: Option<int>,
    oldestPublishedRollup: Option<int>,
    oldestPendingTx: Option<int>,
    latestTx: Option<int>)

  /**
   * `nextPublishTime`: a rollup being created is published after its proof, delayed by
   * whatever settling time the oldest published rollup still has left; failing that, a
   * pending transaction is rolled up at the latest after the server's maximum wait; failing
   * that, the next transaction is expected one mean interval after the latest one, or after now.
   */
  function NextPublishTime(q: PublishQueries, maxRollupWaitTime: int, now: int): (t: int)
    ensures q.oldestCreatingRollup.Some? && q.oldestPublishedRollup.None? ==>
      t == q.oldestCreatingRollup.value + 30000
    ensures q.oldestCreatingRollup.Some? && q.oldestPublishedRollup.Some? ==>
      t == q.oldestCreatingRollup.value + 30000 + (q.oldestPublishedRollup.value + 30000 + 60000 - now)
    ensures q.oldestCreatingRollup.None? && q.oldestPendingTx.Some? ==>
      t == q.oldestPendingTx.value + maxRollupWaitTime + 30000
    ensures q.oldestCreatingRollup.None? && q.oldestPendingTx.None? && q.latestTx.Some? ==>
      t == q.latestTx.value + 1830000
    ensures q.oldestCreatingRollup.None? && q.oldestPendingTx.None? && q.latestTx.None? ==>
      t == now + 1830000
  {
    match q.oldestCreatingRollup
    case Some(pending) =>
      var remainingSettleTime :=
        match q.oldestPublishedRollup
        case Some(published) => published + AvgProofTime + AvgSettleTime - now
        case None => 0;
      pending + AvgProofTime + remainingSettleTime
    case None =>
      match q.oldestPendingTx
      case Some(tx) => tx + maxRollupWaitTime + AvgProofTime
      case None =>
        match q.latestTx
        case Some(latest) => latest + AvgNewTxTime + AvgProofTime
        case None => now + AvgNewTxTime + AvgProofTime
  }

  /**
   * A rollup being created decides the estimate alone: the transaction lookups and the
   * server's maximum wait are not consulted.
   */
  lemma CreatingRollupTakesPriority(q1: PublishQueries, q2: PublishQueries, wait1: int, wait2: int, now: int)
    requires q1.oldestCreatingRollup.Some? && q1.oldestCreatingRollup == q2.oldestCreatingRollup
    requires q1.oldestPublishedRollup == q2.oldestPublishedRollup
    ensures NextPublishTime(q1, wait1, now) == NextPublishTime(q2, wait2, now)
  {
  }

  /**
   * With nothing left to settle, a rollup being created is published one proof time after its
   * creation, whenever the estimate is asked for.
   */
  lemma CreatingRollupWithoutPublished(q: PublishQueries, maxRollupWaitTime: int, now1: int, now2: int)
    requires q.oldestCreatingRollup.Some? && q.oldestPublishedRollup.None?
    ensures NextPublishTime(q, maxRollupWaitTime, now1) == NextPublishTime(q, maxRollupWaitTime, now2)
  {
  }

  /**
   * Behind a published rollup, a rollup being created waits for the published one's proof
   * and settle times to run out: the estimate moves earlier one for one as the clock
   * advances, and lies past the creating rollup's own proof time exactly while the published
   * rollup has not settled.
   */
  lemma CreatingRollupBehindPublished(q: PublishQueries, maxRollupWaitTime: int, now: int, elapsed: int)
    requires q.oldestCreatingRollup.Some? && q.oldestPublishedRollup.Some?
    ensures NextPublishTime(q, maxRollupWaitTime, now + elapsed) == NextPublishTime(q, maxRollupWaitTime, now) - elapsed
    ensures NextPublishTime(q, maxRollupWaitTime, now) > q.oldestCreatingRollup.value + AvgProofTime <==>
            now < q.oldestPublishedRollup.value + AvgProofTime + AvgSettleTime
  {
  }

  /**
   * Without a rollup being created, a pending transaction is published at most the server's
   * maximum wait plus a proof time after it arrived, and a longer wait only delays it.
   */
  lemma PendingTxEstimate(q: PublishQueries, wait1: int, wait2: int, now: int)
    requires q.oldestCreatingRollup.None? && q.oldestPendingTx.Some?
    ensures wait1 >= 0 ==> NextPublishTime(q, wait1, now) >= q.oldestPendingTx.value + 30000
    ensures NextPublishTime(q, wait2, now) - NextPublishTime(q, wait1, now) == wait2 - wait1
  {
  }

  /** The pending transaction decides the estimate alone: neither the clock nor the other lookups matter. */
  lemma PendingTxTakesPriority(q1: PublishQueries, q2: PublishQueries, maxRollupWaitTime: int, now1: int, now2: int)
    requires q1.oldestCreatingRollup.None? && q2.oldestCreatingRollup.None?
    requires q1.oldestPendingTx.Some? && q1.oldestPendingTx == q2.oldestPendingTx
    ensures NextPublishTime(q1, maxRollupWaitTime, now1) == NextPublishTime(q2, maxRollupWaitTime, now2)
  {
  }

  /**
   * With no pending work the estimate follows the latest transaction, not the clock; a server
   * that has seen no transaction always expects the next rollup later than now.
   */
  lemma IdleEstimate(q: PublishQueries, maxRollupWaitTime: int, now1: int, now2: int)
    requires q.oldestCreatingRollup.None? && q.oldestPendingTx.None?
    ensures q.latestTx.Some? ==>
      NextPublishTime(q, maxRollupWaitTime, now1) == NextPublishTime(q, maxRollupWaitTime, now2)
    ensures q.latestTx.None? ==> NextPublishTime(q, maxRollupWaitTime, now1) > now1
  {
  }

  /** A published rollup matters only while a rollup is being created. */
  lemma PublishedRollupNeedsCreating(q: PublishQueries, maxRollupWaitTime: int, now: int, published: Option<int>)
    requires q.oldestCreatingRollup.None?
    ensures NextPublishTime(q.(oldestPublishedRollup := published), maxRollupWaitTime, now) ==
            NextPublishTime(q, maxRollupWaitTime, now)
  {
  }

  /** The part of the server's status the resolver copies; server.ts is not part of this model. */
  datatype StaticServerStatus = StaticServerStatus(chainId: int, networkOrHost: string, rollupContractAddress: string)

  datatype ServerConfig = ServerConfig(maxRollupWaitTime: int)

  class ServerStatusResolver {
    /** Read-only from construction on, so every `serverStatus` query answers the same. */
    const staticServerStatus: StaticServerStatus
    const serverConfig: ServerConfig

    /** Copies the server's chain id, network or host, and rollup contract address. */
    constructor(serverConfig: ServerConfig, chainId: int, networkOrHost: string, rollupContractAddress: string)
      ensures staticServerStatus.chainId == chainId
      ensures staticServerStatus.networkOrHost == networkOrHost
      ensures staticServerStatus.rollupContractAddress == rollupContractAddress
      ensures this.serverConfig == serverConfig
    {
      this.serverConfig := serverConfig;
      staticServerStatus := StaticServerStatus(chainId, networkOrHost, rollupContractAddress);
    }

    /** The `serverStatus` query: the snapshot fixed at construction, the same on every call. */
    function ServerStatus(): (s: StaticServerStatus)
      ensures s == staticServerStatus
    {
      staticServerStatus
    }

    /** The `nextPublishTime` field, with the server's configured maximum rollup wait. */
    function NextPublishTimeAt(q: PublishQueries, now: int): (t: int)
      ensures q.oldestCreatingRollup.None? && q.oldestPendingTx.Some? ==>
        t == q.oldestPendingTx.value + serverConfig.maxRollupWaitTime + 30000
    {
      NextPublishTime(q, serverConfig.maxRollupWaitTime, now)
    }
  }
}

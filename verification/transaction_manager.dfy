/**
 * The transaction sync engine (`TransactionManager`): a sync state with an
 * equality-gated notifying setter, a retry budget with a doubling delay, and
 * the commit that saves both provider lists and notifies with the pairings.
 *
 * The asynchronous parts become explicit event methods: `Refresh` starts a
 * run, `OnProviderResult` and `OnProviderError` are the two callbacks of the
 * joined provider request. Storage reads arrive as parameters. Storage
 * writes and listener calls are recorded, in the order they happen, in one
 * ghost effects log; provider requests are recorded in a second ghost log.
 */
module TransactionSync {
  import opened Wrappers
  import opened Transactions

  datatype SyncError = NotStarted | ProviderFailure(cause: string)

  datatype SyncState = NotSynced(error: SyncError) | Syncing | Synced

  /** The last stored block heights, as storage reports them (absent when nothing is stored). */
  datatype StoredHeights = StoredHeights(lastTransactionBlock: Option<int>, lastInternalTransactionBlock: Option<int>)

  /** One joined request to the provider: both lists, from these blocks, started after `delay` seconds if any. */
  datatype ProviderRequest = ProviderRequest(delay: Option<int>, transactionsStartBlock: int, internalTransactionsStartBlock: int)

  /** A write to storage or a call on the engine's listener. */
  datatype Effect =
    | SaveTransactions(transactions: seq<Transaction>)
    | SaveInternalTransactions(internalTransactions: seq<InternalTransaction>)
    | UpdateTransactions(pairings: seq<TransactionWithInternal>)
    | UpdateTransactionsSyncState(syncState: SyncState)

  /** What a commit does, in order: save both lists, notify with the pairings, then announce `Synced`. */
  function CommitEffects(txs: seq<Transaction>, itxs: seq<InternalTransaction>): seq<Effect> {
    [SaveTransactions(txs), SaveInternalTransactions(itxs), UpdateTransactions(Pair(txs, itxs)), UpdateTransactionsSyncState(Synced)]
  }

  /** What a provider result led to: another attempt after `delay` seconds, or a commit. */
  datatype ResultOutcome = RetryAfter(delay: int) | Committed

  const InitialDelay := 3
  const DelayIncreaseFactor := 2
  const RetryBudget := 5

  /** The block a provider query starts from: one past the last stored height, an absent height counting as 0. */
  function StartBlock(lastHeight: Option<int>): (b: int)
    ensures lastHeight.Some? ==> b == lastHeight.value + 1
    ensures lastHeight.None? ==> b == 1
  {
    lastHeight.GetOr(0) + 1
  }

  function Pow2(n: nat): (p: nat)
    ensures p >= 1
  {
    if n == 0 then 1 else 2 * Pow2(n - 1)
  }

  lemma {:induction false} Pow2Monotone(i: nat, j: nat)
    requires i <= j
    ensures Pow2(i) <= Pow2(j)
  {
    if i < j {
      Pow2Monotone(i, j - 1);
    }
  }

  /** The delay before the k-th retry of a delayed run (k counted from 1). */
  function RetryDelay(k: nat): int {
    InitialDelay * Pow2(k)
  }

  /** One more retry doubles the delay and stays within the ladder's last rung. */
  lemma RetryDelayStep(k: nat)
    requires k < RetryBudget
    ensures RetryDelay(k + 1) == DelayIncreaseFactor * RetryDelay(k)
    ensures InitialDelay <= RetryDelay(k + 1) <= RetryDelay(RetryBudget)
  {
    Pow2Monotone(k + 1, RetryBudget);
  }

  class TransactionManager {
    var syncState: SyncState
    var retryCount: nat
    var delayTime: int
    ghost var effects: seq<Effect>
    ghost var requests: seq<ProviderRequest>

    /**
     * Outside a run no retries remain. While retries remain (only inside a
     * delayed run) the delay is 3 * 2^(retries used so far). At all times the
     * delay stays within [3, 96], so the source's 32-bit counter never
     * overflows.
     */
    ghost predicate Valid()
      reads this
    {
      && retryCount <= RetryBudget
      && InitialDelay <= delayTime <= RetryDelay(RetryBudget)
      && (retryCount > 0 ==> syncState == Syncing && delayTime == RetryDelay(RetryBudget - retryCount))
    }

    constructor ()
      ensures Valid()
      ensures syncState == NotSynced(NotStarted) && retryCount == 0 && delayTime == InitialDelay
      ensures effects == [] && requests == []
    {
      syncState := NotSynced(NotStarted);
      retryCount := 0;
      delayTime := InitialDelay;
      effects, requests := [], [];
    }

    /** The `syncState` setter: the listener hears of a new value only when it differs from the current one. */
    method SetSyncState(value: SyncState)
      modifies this`syncState, this`effects
      ensures syncState == value
      ensures old(syncState) == value ==> effects == old(effects)
      ensures old(syncState) != value ==> effects == old(effects) + [UpdateTransactionsSyncState(value)]
    {
      if syncState != value {
        syncState := value;
        effects := effects + [UpdateTransactionsSyncState(value)];
      }
    }

    /** `sync`: issue one joined provider request from the stored heights, after `delay` if given. */
    method Sync(delay: Option<int>, heights: StoredHeights)
      modifies this`requests
      ensures requests == old(requests) + [ProviderRequest(delay,
        StartBlock(heights.lastTransactionBlock), StartBlock(heights.lastInternalTransactionBlock))]
    {
      requests := requests + [ProviderRequest(delay,
        StartBlock(heights.lastTransactionBlock), StartBlock(heights.lastInternalTransactionBlock))];
    }

    /** `update`: save both lists, then notify with the non-empty pairings (even when there are none). */
    method Update(txs: seq<Transaction>, itxs: seq<InternalTransaction>)
      modifies this`effects
      ensures effects == old(effects)
        + [SaveTransactions(txs), SaveInternalTransactions(itxs), UpdateTransactions(Pair(txs, itxs))]
    {
      effects := effects + [SaveTransactions(txs), SaveInternalTransactions(itxs)];
      effects := effects + [UpdateTransactions(Pair(txs, itxs))];
    }

    /**
     * `refresh(delay)`: a no-op while a run is in flight; otherwise start a
     * run, with a fresh retry budget and a first attempt after 3 seconds when
     * `delay` is set, or an immediate attempt with no retries otherwise.
     */
    method Refresh(delay: bool, heights: StoredHeights)
      requires Valid()
      modifies this
      ensures Valid()
      ensures old(syncState) == Syncing ==>
        && syncState == Syncing && retryCount == old(retryCount) && delayTime == old(delayTime)
        && effects == old(effects) && requests == old(requests)
      ensures old(syncState) != Syncing ==>
        && syncState == Syncing
        && effects == old(effects) + [UpdateTransactionsSyncState(Syncing)]
      ensures old(syncState) != Syncing && delay ==>
        && retryCount == RetryBudget && delayTime == InitialDelay
        && requests == old(requests) + [ProviderRequest(Some(InitialDelay),
             StartBlock(heights.lastTransactionBlock), StartBlock(heights.lastInternalTransactionBlock))]
      ensures old(syncState) != Syncing && !delay ==>
        && retryCount == old(retryCount) == 0 && delayTime == old(delayTime)
        && requests == old(requests) + [ProviderRequest(None,
             StartBlock(heights.lastTransactionBlock), StartBlock(heights.lastInternalTransactionBlock))]
    {
      if syncState == Syncing {
        return;
      }
      SetSyncState(Syncing);
      if delay {
        retryCount := RetryBudget;
        delayTime := InitialDelay;
        Sync(Some(delayTime), heights);
      } else {
        Sync(None, heights);
      }
    }

    /**
     * The joined provider result of the attempt in flight. Both lists empty
     * with retries left: use one retry, double the delay and ask again after
     * it, changing nothing else. Otherwise: commit and end the run in `Synced`.
     */
    method OnProviderResult(txs: seq<Transaction>, itxs: seq<InternalTransaction>, heights: StoredHeights)
      returns (outcome: ResultOutcome)
      requires Valid() && syncState == Syncing
      modifies this
      ensures Valid()
      ensures old(retryCount) > 0 && txs == [] && itxs == [] ==>
        && outcome == RetryAfter(delayTime)
        && retryCount == old(retryCount) - 1
        && delayTime == DelayIncreaseFactor * old(delayTime)
        && syncState == Syncing
        && effects == old(effects)
        && requests == old(requests) + [ProviderRequest(Some(delayTime),
             StartBlock(heights.lastTransactionBlock), StartBlock(heights.lastInternalTransactionBlock))]
      ensures !(old(retryCount) > 0 && txs == [] && itxs == []) ==>
        && outcome == Committed
        && retryCount == 0
        && delayTime == old(delayTime)
        && syncState == Synced
        && effects == old(effects) + CommitEffects(txs, itxs)
        && requests == old(requests)
    {
      if retryCount > 0 && txs == [] && itxs == [] {
        RetryDelayStep(RetryBudget - retryCount);
        retryCount := retryCount - 1;
        delayTime := delayTime * DelayIncreaseFactor;
        Sync(Some(delayTime), heights);
        outcome := RetryAfter(delayTime);
        return;
      }
      retryCount := 0;
      Update(txs, itxs);
      SetSyncState(Synced);
      outcome := Committed;
    }

    /** The provider request of the attempt in flight failed: end the run in `NotSynced(cause)`, saving nothing. */
    method OnProviderError(cause: string)
      requires Valid() && syncState == Syncing
      modifies this
      ensures Valid()
      ensures retryCount == 0 && delayTime == old(delayTime)
      ensures syncState == NotSynced(ProviderFailure(cause))
      ensures effects == old(effects) + [UpdateTransactionsSyncState(NotSynced(ProviderFailure(cause)))]
      ensures requests == old(requests)
    {
      retryCount := 0;
      SetSyncState(NotSynced(ProviderFailure(cause)));
    }

    /**
     * `handle(tx)`: store one transaction out of band and notify with its
     * pairing unless that is empty; the sync state and the counters stay.
     */
    method Handle(tx: Transaction)
      requires Valid()
      modifies this`effects
      ensures Valid()
      ensures syncState == old(syncState) && retryCount == old(retryCount) && delayTime == old(delayTime)
      ensures tx.value != 0 ==>
        effects == old(effects) + [SaveTransactions([tx]), UpdateTransactions([TransactionWithInternal(tx, [])])]
      ensures tx.value == 0 ==> effects == old(effects) + [SaveTransactions([tx])]
      ensures effects == old(effects) + [SaveTransactions([tx])]
        + (if Pair([tx], []) != [] then [UpdateTransactions(Pair([tx], []))] else [])
      ensures requests == old(requests)
    {
      PairWithoutInternals(tx);
      effects := effects + [SaveTransactions([tx])];
      var transactionWithInternal := TransactionWithInternal(tx, []);
      if !IsEmpty(transactionWithInternal) {
        effects := effects + [UpdateTransactions([transactionWithInternal])];
      }
    }
  }

  /**
   * A delayed run against a provider that answers the first `emptyAnswers`
   * attempts with nothing and later attempts with `txs` and `itxs` (not both
   * empty). The run retries min(emptyAnswers, 5) times, waiting 6, 12, 24,
   * 48, 96 seconds, makes at most 6 provider requests and ends in `Synced`.
   * It commits the supplied lists when they arrive within the budget; after a
   * sixth empty answer it commits the two empty lists instead.
   */
  method DelayedRun(emptyAnswers: nat, txs: seq<Transaction>, itxs: seq<InternalTransaction>, heights: StoredHeights)
    returns (retryDelays: seq<int>, attempts: nat, final: SyncState, ghost asked: nat, ghost effects: seq<Effect>)
    requires txs != [] || itxs != []
    ensures |retryDelays| == if emptyAnswers < RetryBudget then emptyAnswers else RetryBudget
    ensures forall k :: 0 <= k < |retryDelays| ==> retryDelays[k] == RetryDelay(k + 1)
    ensures attempts == |retryDelays| + 1 <= RetryBudget + 1
    ensures asked == attempts
    ensures effects == [UpdateTransactionsSyncState(Syncing)]
      + if emptyAnswers <= RetryBudget then CommitEffects(txs, itxs) else CommitEffects([], [])
    ensures final == Synced
  {
    var m := new TransactionManager();
    m.Refresh(true, heights);
    retryDelays, attempts := [], 0;
    var committed := false;
    while attempts < emptyAnswers && !committed
      invariant fresh(m) && m.Valid() && attempts <= emptyAnswers
      invariant !committed ==> m.syncState == Syncing && attempts == |retryDelays| <= RetryBudget
      invariant !committed ==> m.retryCount == RetryBudget - |retryDelays|
      invariant committed ==> m.syncState == Synced && |retryDelays| == RetryBudget && attempts == RetryBudget + 1
      invariant forall k :: 0 <= k < |retryDelays| ==> retryDelays[k] == RetryDelay(k + 1)
      invariant |m.requests| == attempts + (if committed then 0 else 1)
      invariant !committed ==> m.effects == [UpdateTransactionsSyncState(Syncing)]
      invariant committed ==> m.effects == [UpdateTransactionsSyncState(Syncing)] + CommitEffects([], []) && emptyAnswers > RetryBudget
    {
      var outcome := m.OnProviderResult([], [], heights);
      if outcome.RetryAfter? {
        retryDelays := retryDelays + [outcome.delay];
      } else {
        committed := true;
      }
      attempts := attempts + 1;
    }
    if !committed {
      var _ := m.OnProviderResult(txs, itxs, heights);
      attempts := attempts + 1;
    }
    final := m.syncState;
    asked, effects := |m.requests|, m.effects;
  }
}

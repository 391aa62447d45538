# ethereum-kit sync and transport core, modelled in Dafny

This project models two sequential state machines of the Android
ethereum-kit library and proves what they promise.

* **The transaction sync engine** (`TransactionManager`, module
  `TransactionSync`). It has a sync state (`NotSynced(error)`, `Syncing`,
  `Synced`) whose setter tells the listener only about real changes. A
  `refresh` starts a sync run unless one is already in flight. A delayed run
  gets a retry budget of 5 and a delay of 3 seconds. When the provider
  answers with two empty lists and retries remain, the engine uses one
  retry, doubles the delay and asks again. Otherwise it commits: it saves
  both lists, pairs every transaction with the internal transactions that
  share its hash, drops the empty pairings, notifies and ends in `Synced`. A
  provider error ends the run in `NotSynced(error)`. `handle(tx)` stores and
  announces one transaction without touching the sync state.
* **The pairing** (module `Transactions`). This is the pure
  `mapNotNull`/`filter` expression of `update` together with `isEmpty`.
* **The RPC websocket connection** (`InfuraRpcWebSocket`, module
  `RpcWebSocket`). It has a connection state (`Disconnected(error)`,
  `Connecting`, `Connected`) whose setter notifies on every assignment. The
  socket is created lazily, once. `send` is refused with `NotConnected`
  unless the connection is up. The socket library's lifecycle events drive
  the state. Every incoming JSON-RPC payload is classified as a correlated
  response, an `eth_subscription` event, or dropped.

Asynchronous callbacks become event methods that are called one at a time.
For the engine these are `OnProviderResult` and `OnProviderError`, the two
outcomes of the joined provider request. For the connection they are
`OnEvent` and `OnResponse`, one element of each of the socket's two
streams. Storage reads (the last stored block heights) arrive as
parameters. The engine's storage writes and listener calls share one ghost
log, in the order they happen. Its provider requests go to a second log.
The connection's transmitted requests and listener calls each have their
own log. Each log is in order.

The two setters differ, and the model follows the code. The sync-state
setter is equality-gated. The connection-state setter is not: assigning the
current connection state notifies the listener again. `start()` also
re-enters `Connecting` when the connection is already up.

`Valid()` of the engine bounds `delayTime` to [3, 96]. So the source's
32-bit `Int` counters never overflow, and the model uses unbounded integers
without wrap-around.

## Model

| member | source | states |
|---|---|---|
| `Transactions.EmptyPairing` | ethereumkit/src/main/java/io/horizontalsystems/ethereumkit/core/TransactionManager.kt:44-47 | the pairing `update` builds for a transaction is dropped exactly when the transaction moves no value and no internal transaction carries its hash, so one matching internal transaction is enough for delivery |
| `Transactions.WithInternals` | ethereumkit/src/main/java/io/horizontalsystems/ethereumkit/core/TransactionManager.kt:44-45 | the pairing built for one transaction holds that transaction and every internal transaction of the input with its hash, and no other hash |
| `Transactions.InternalsOf` | ethereumkit/src/main/java/io/horizontalsystems/ethereumkit/core/TransactionManager.kt:44 | the internal transactions kept for a hash are exactly those of the input with that hash, each with its multiplicity, and no more than the input |
| `Transactions.InternalsOfAppend` | ethereumkit/src/main/java/io/horizontalsystems/ethereumkit/core/TransactionManager.kt:44 | the hash filter distributes over concatenation, so it keeps the internal transactions in their original order |
| `Transactions.Pair` | ethereumkit/src/main/java/io/horizontalsystems/ethereumkit/core/TransactionManager.kt:43-59 | no more pairings than transactions; every pairing is non-empty, belongs to an input transaction and holds exactly the internal transactions sharing its hash; every transaction whose pairing is non-empty is delivered |
| `Transactions.PairAppend` | ethereumkit/src/main/java/io/horizontalsystems/ethereumkit/core/TransactionManager.kt:43-52 | pairing distributes over concatenation of the transaction list, so outputs follow transaction order |
| `Transactions.PairSingle` | ethereumkit/src/main/java/io/horizontalsystems/ethereumkit/core/TransactionManager.kt:43-59 | a single transaction yields its pairing exactly when that pairing is not empty (with PairAppend this determines Pair completely) |
| `Transactions.PairKeepsAll` | ethereumkit/src/main/java/io/horizontalsystems/ethereumkit/core/TransactionManager.kt:43-59 | when no pairing is empty nothing is dropped and the k-th output is the k-th transaction's pairing |
| `Transactions.PairWithoutInternals` | ethereumkit/src/main/java/io/horizontalsystems/ethereumkit/core/TransactionManager.kt:57-59 | a transaction with no internal transactions is delivered exactly when its value is non-zero, which is the pairing `handle` notifies with |
| `TransactionSync.StartBlock` | ethereumkit/src/main/java/io/horizontalsystems/ethereumkit/core/TransactionManager.kt:62-67 | a provider query starts one block past the last stored height; an absent height counts as 0, so the start is block 1 |
| `TransactionSync.RetryDelayStep` | ethereumkit/src/main/java/io/horizontalsystems/ethereumkit/core/TransactionManager.kt:20-21 | each retry multiplies the delay by the factor 2, and the fifth retry's delay (96) is the largest there is |
| `TransactionSync.TransactionManager.constructor` | ethereumkit/src/main/java/io/horizontalsystems/ethereumkit/core/TransactionManager.kt:20-26 | a new engine is `NotSynced(NotStarted)` with no retries, a delay of 3 and nothing saved, requested or notified |
| `TransactionSync.TransactionManager.SetSyncState` | ethereumkit/src/main/java/io/horizontalsystems/ethereumkit/core/TransactionManager.kt:26-32 | the state takes the new value; the listener is notified once if it differs from the old value, and not at all otherwise |
| `TransactionSync.TransactionManager.Sync` | ethereumkit/src/main/java/io/horizontalsystems/ethereumkit/core/TransactionManager.kt:61-73 | exactly one joined provider request is issued, with the given delay and both start blocks taken from the stored heights |
| `TransactionSync.TransactionManager.Update` | ethereumkit/src/main/java/io/horizontalsystems/ethereumkit/core/TransactionManager.kt:39-55 | in one ordered log: the transactions are saved, then the internal transactions, then the listener gets the non-empty pairings, even when there are none |
| `TransactionSync.TransactionManager.Refresh` | ethereumkit/src/main/java/io/horizontalsystems/ethereumkit/core/TransactionManager.kt:96-110 | while `Syncing` nothing changes at all; otherwise the state becomes `Syncing` with one notification and one attempt is requested: after 3 s with budget 5 and delay 3 when delayed, at once with the counters untouched (no retries) when not; the invariant is kept |
| `TransactionSync.TransactionManager.OnProviderResult` | ethereumkit/src/main/java/io/horizontalsystems/ethereumkit/core/TransactionManager.kt:75-86 | two empty lists with retries left: one retry fewer, the delay doubled, a new request after the new delay, state still `Syncing`, nothing saved or notified; otherwise: no retries left and, in this order, both lists saved, the pairings notified and `Synced` notified; state `Synced` |
| `TransactionSync.TransactionManager.OnProviderError` | ethereumkit/src/main/java/io/horizontalsystems/ethereumkit/core/TransactionManager.kt:87-90 | no retries left, state `NotSynced(cause)` with one notification, nothing saved and nothing requested |
| `TransactionSync.TransactionManager.Handle` | ethereumkit/src/main/java/io/horizontalsystems/ethereumkit/core/TransactionManager.kt:116-124 | exactly `[tx]` is saved, and after that save the listener gets `Pair([tx], [])`, the pairing the sync path would build for this transaction alone, when that is not empty, that is iff the value is non-zero; the sync state, the retry count and the delay are unchanged |
| `TransactionSync.DelayedRun` | ethereumkit/src/main/java/io/horizontalsystems/ethereumkit/core/TransactionManager.kt:78-86 | a delayed run whose provider first answers with nothing n times retries min(n, 5) times, the k-th retry after 3 * 2^k seconds; the engine makes exactly one provider request per answer, at most 6 in all; its whole effects log is the `Syncing` notification followed by one commit (saves, pairings, `Synced`) of the supplied lists when n <= 5, or of two empty lists when n > 5 |
| `RpcWebSocket.Classify` | ethereumkit/src/main/java/io/horizontalsystems/ethereumkit/api/InfuraRpcWebSocket.kt:178-188 | a payload with an id is a correlated response carrying its id, result and error, whatever its method; without an id, method `eth_subscription` with params is a subscription event; everything else is unknown; the three cases are exclusive and exhaustive |
| `RpcWebSocket.Delivery` | ethereumkit/src/main/java/io/horizontalsystems/ethereumkit/api/InfuraRpcWebSocket.kt:179-187 | a classified payload gives at most one listener call: the response or the subscription event it carries, and none for an unknown payload |
| `RpcWebSocket.InfuraRpcWebSocket.constructor` | ethereumkit/src/main/java/io/horizontalsystems/ethereumkit/api/InfuraRpcWebSocket.kt:39-41 | a new connection is `Disconnected(NotStarted)` with no socket, nothing sent and no listener call |
| `RpcWebSocket.InfuraRpcWebSocket.SetState` | ethereumkit/src/main/java/io/horizontalsystems/ethereumkit/api/InfuraRpcWebSocket.kt:41-45 | every assignment sets the state and makes exactly one listener call, equal value or not |
| `RpcWebSocket.InfuraRpcWebSocket.Connect` | ethereumkit/src/main/java/io/horizontalsystems/ethereumkit/api/InfuraRpcWebSocket.kt:109-116 | afterwards a socket exists, and exactly one has ever been created; an existing socket is kept |
| `RpcWebSocket.InfuraRpcWebSocket.Start` | ethereumkit/src/main/java/io/horizontalsystems/ethereumkit/api/InfuraRpcWebSocket.kt:89-93 | the state becomes `Connecting` with one notification, even when connected, and however often it is called exactly one socket exists |
| `RpcWebSocket.InfuraRpcWebSocket.Stop` | ethereumkit/src/main/java/io/horizontalsystems/ethereumkit/api/InfuraRpcWebSocket.kt:95-97 | neither the state nor the socket nor any log changes |
| `RpcWebSocket.InfuraRpcWebSocket.Disconnect` | ethereumkit/src/main/java/io/horizontalsystems/ethereumkit/api/InfuraRpcWebSocket.kt:118-120 | neither the state nor the socket changes; closing is left to the host lifecycle |
| `RpcWebSocket.InfuraRpcWebSocket.Send` | ethereumkit/src/main/java/io/horizontalsystems/ethereumkit/api/InfuraRpcWebSocket.kt:99-106 | unless `Connected` the send fails with `NotConnected` and transmits nothing; when connected the request is transmitted unchanged |
| `RpcWebSocket.InfuraRpcWebSocket.OnEvent` | ethereumkit/src/main/java/io/horizontalsystems/ethereumkit/api/InfuraRpcWebSocket.kt:126-165 | connection opened gives `Connected`, closed gives `Disconnected(SocketDisconnected(reason))`, failed gives `Disconnected(cause)`, each with one notification; every other event changes neither the state nor the listener log |
| `RpcWebSocket.InfuraRpcWebSocket.OnResponse` | ethereumkit/src/main/java/io/horizontalsystems/ethereumkit/api/InfuraRpcWebSocket.kt:172-192 | a payload produces the listener call its classification names, at most one, and an unknown payload none; nothing propagates |

## Left out

- `getTransactions(fromHash, limit)`: a pass-through to storage with no logic of its own.
- The Scarlet/OkHttp construction of the connection: interceptors, the Basic-auth header, the URL, the Gson adapters and the Android foreground lifecycle. This is library configuration.
- The exponential backoff with jitter (3000–5000 ms) for reconnecting. It runs inside the socket library, which is not part of this model.
- The Rx machinery: schedulers, `Single.zip`, `delaySubscription`, disposables. The joined provider answer is one event, and a delay is a number recorded with the request, not real time. Callbacks are assumed to arrive one at a time.
- `OnProviderResult` and `OnProviderError` require `Syncing`. In the source a provider callback only arrives for an attempt the engine started, and, as long as storage does not fail (next line), an attempt is in flight exactly while the state is `Syncing`.
- Storage reads and writes are assumed not to fail. In the source a failing height read in `sync` (TransactionManager.kt:62-63) or a failing save in `update` (lines 40-41, inside the success callback) does not end the run in `NotSynced`. Such a failure would leave the engine `Syncing`, and `refresh` would then return early forever. The model has no such path.
- `OnEvent` and `OnResponse` require a created socket, because both streams are subscribed to when the socket is created.
- Refresh: provider requests live in their own log. So the order of the request relative to the `Syncing` notification is not recorded; in the source the notification comes first.
- OnProviderResult: provider requests live in their own log. So the order of a retry request relative to other effects is not recorded; a retry has no other effects.
- Logging, `printStackTrace` and the diagnostic trace in `send`: no behaviour.
- Listeners are nullable in the source. The model records the calls a registered listener receives; with no listener these calls are simply not made.
- The listener's own exceptions in `OnResponse`: the source catches and logs them. The model has no failing listener, so the method simply never fails.
- Block heights are `Long` in the source; `StartBlock` does not model a 64-bit overflow of `height + 1`.
- `handle` builds `TransactionWithInternal(transaction)`. That model class is not part of this model; its internal list is taken to default to empty.
- Transactions are abstracted to a hash and a value, and internal transactions to a hash and a trace id. `SyncState` and the connection state compare structurally.
- `source` labels, the `IBlockchain` facade, in-flight request tracking and the dispatch facade: no code for them is modelled.
- The WalletConnect sample screen is UI glue. The interface declarations carry no logic.

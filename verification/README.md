# iota-client core, modelled in Dafny

This project models the decision logic of the IOTA Rust client library
(`iota-client`, Chrysalis-era API v1). It covers two parts.

The first part is the unspent-address scan of `GetUnspentAddressBuilder::get`.
Starting at a cursor, the scan:

- derives batches of 20 addresses of a wallet chain (seed plus BIP-0032 path);
- queries their balances in order;
- returns the first address whose balance is zero, with its absolute index.

The second part is the decision and bookkeeping logic of `Client`:

- the synced node pool (`sync_nodes`, `get_node`);
- the proof-of-work provider (`ClientMinerBuilder`, `ClientMiner::nonce`, `get_pow_provider`);
- the decoding of the network id from the BLAKE2b digest of the node's network name;
- the message lifecycle (`promote`, `reattach`, `retry`);
- the collecting queries (`get_output`, `find_outputs`, `find_messages`, `get_address_balances`).

Everything the client asks of the outside world becomes a parameter:

- the node's HTTP endpoints;
- address derivation;
- the BLAKE2b hash;
- hex decoding;
- the message builder's validity check;
- the local miner.

They fail in different ways:

- the HTTP endpoints, address derivation and hex decoding return a `Result`
  and may fail with the client's `Error`;
- the BLAKE2b hash is total;
- the builder's check is a yes-or-no predicate, and the client turns a
  refusal into `TransactionError`;
- the local miner reports `Failed` with a reason, which the client wraps
  as `Pow`.

Where the order or number of requests matters, the model records the requests in a log that the proofs talk
about:

- the scan's `seq<Batch>`;
- the lifecycle's `calls`;
- the collectors' `looked`, `fetched` and `queried`.

Files:

- `types.dfy`: errors, `Result`/`Option`, bytes, `u64`, and the ledger entities.
- `unspent.dfy`: the scan. The method `GetUnspentAddress` and its loops are
  proved against the closed-form specification `ScanSpec`, and lemmas state
  what the scan promises.
- `pow.dfy`: miner builder, miner, and nonce.
- `networkid.dfy`: the little-endian decoding of the digest, with
  round-trip lemmas.
- `nodepool.dfy`: the `Client` class with its node pool.
- `lifecycle.dfy`: promote, reattach and retry.
- `collectors.dfy`: output decoding and the de-duplicating collectors.

## Model

| member | source | states |
|---|---|---|
| Unspent.NewQuery | iota-client/src/api/unspent.rs:19-26 | no contract of its own; `BuilderDefaults` states that a new query has no path and no index |
| Unspent.StartIndex | iota-client/src/api/unspent.rs:47-50 | no contract of its own; `BuilderDefaults` states that the scan starts at the given index, or at 0 without one |
| Unspent.UnspentAddressQuery.WithPath | iota-client/src/api/unspent.rs:29-32 | no contract of its own; `BuilderDefaults` states that it sets the path and nothing else |
| Unspent.UnspentAddressQuery.WithIndex | iota-client/src/api/unspent.rs:35-38 | no contract of its own; `BuilderDefaults` states that the scan then starts at the given index and that it leaves the path unset |
| Unspent.BuilderDefaults | iota-client/src/api/unspent.rs:17-38 | a new builder has no path and no index (so the scan starts at 0); `path` and `index` set only their own field |
| Unspent.DeriveRange | iota-client/src/api/unspent.rs:53-58 | a batch `lo..lo+n` that derives has exactly `n` addresses, the k-th being the one derived at `lo+k` |
| Unspent.DeriveRangeFails | iota-client/src/api/unspent.rs:58 | a batch that fails to derive fails with the error of its lowest non-deriving index, all lower indices deriving |
| Unspent.FirstStop | iota-client/src/api/unspent.rs:62-71 | the lowest index at or above the cursor that is not moved past; every index between is busy (derives with a non-zero balance) |
| Unspent.FirstStopIs | iota-client/src/api/unspent.rs:62-71 | an index that is not busy, with every index from the start up to it busy, is the first stop |
| Unspent.BatchOf | iota-client/src/api/unspent.rs:52-76 | the batch holding index `k` starts at a batch start `start + 20m` with `start <= b <= k < b + 20` |
| Unspent.BatchOfWithin | iota-client/src/api/unspent.rs:52-76 | an index inside the batch that starts at a batch start `b` belongs to that batch, so the batches never overlap |
| Unspent.QueryBatch | iota-client/src/api/unspent.rs:61-71 | the inner loop queries balances of consecutive indices from the cursor, bumps the cursor once per non-zero balance, stops at the first zero (returning that address and its index) or at the first error, and queries nothing after it |
| Unspent.ScanBatch | iota-client/src/api/unspent.rs:53-75 | one outer pass derives exactly `index..index+20`; it either ends the scan with the specification's result or reports all 20 busy and moves the cursor by exactly 20 |
| Unspent.GetUnspentAddress | iota-client/src/api/unspent.rs:41-79 | without a path the result is `MissingParameter("BIP32 path")` and nothing is derived or queried; otherwise the result and every derivation and balance query equal the specification `ScanSpec` from the start index (given index or 0) |
| Unspent.ScanSpecAt | iota-client/src/api/unspent.rs:52-76 | the scan is decided in the batch holding the first non-busy index |
| Unspent.ScanSpecDeriveFails | iota-client/src/api/unspent.rs:53-58 | when that batch does not derive, the scan fails with the derivation error before any balance of the batch is queried |
| Unspent.ScanSpecSteps | iota-client/src/api/unspent.rs:52-76 | the batches derived run from `start` in steps of 20 with no gap or overlap; all earlier batches were fully queried; in the last, exactly the indices up to the stopping one were queried, in order (none if it failed to derive) |
| Unspent.ScanSpecLooksNoFurther | iota-client/src/api/unspent.rs:62-71 | no index past the first non-busy one is ever queried or derived as a batch start |
| Unspent.ScanSpecFound | iota-client/src/api/unspent.rs:62-75 | on success `(a, i)`: `i >= start`, `a` is the address at `i`, its balance is 0, and every index in `start..i` is busy, so `i` is the lowest zero-balance index |
| Unspent.ScanSpecFails | iota-client/src/api/unspent.rs:58 | on failure the error is a derivation error from the final batch or the balance error of the stopping index |
| Unspent.ScanSpecWitnessIrrelevant | iota-client/src/api/unspent.rs:52-76 | the scan's outcome and log do not depend on the termination witness |
| Pow.Nonce | iota-client/src/client.rs:129-138 | remote mode returns `Ok(0)` whatever the bytes and target; local mode fails exactly when the miner fails, and otherwise returns the nonce the miner found |
| Pow.LocalNonceMeetsTarget | iota-client/src/client.rs:129-135 | with a sound miner, a local nonce reaches the target score, and a failure is reported as `Pow` |
| Pow.NewMinerBuilder | iota-client/src/client.rs:109-111 | no contract of its own; `DefaultIsRemote` states that it builds a remote miner |
| Pow.ClientMinerBuilder.WithLocalPow | iota-client/src/client.rs:100-103 | no contract of its own; `FinishKeepsFlag` states that the flag it sets is the one the miner carries |
| Pow.ClientMinerBuilder.Finish | iota-client/src/client.rs:113-117 | no contract of its own; `FinishKeepsFlag` states that the miner carries the builder's flag |
| Pow.DefaultIsRemote | iota-client/src/client.rs:93-117 | the default builder yields a remote miner |
| Pow.FinishKeepsFlag | iota-client/src/client.rs:100-117 | the built miner carries the flag last given to `with_local_pow` |
| NodePool.ProbeNodes | iota-client/src/client.rs:221-228 | the loop probes every configured node in order and keeps exactly those whose probe returned `Ok(true)`; errors count as unhealthy |
| NodePool.Healthy | iota-client/src/client.rs:221-228 | no contract of its own; `HealthyIsSafe` and `HealthyOrderIrrelevant` state what the pool holds |
| NodePool.HealthyIsSafe | iota-client/src/client.rs:223-228 | only configured nodes enter the pool and no node whose probe failed or answered false |
| NodePool.HealthyOrderIrrelevant | iota-client/src/client.rs:221-231 | the pool depends only on the set of configured nodes, not their order or duplicates |
| NodePool.Client.SyncNodes | iota-client/src/client.rs:220-232 | the pool becomes exactly the healthy configured nodes; the old pool is discarded even when the new one is empty |
| NodePool.Client.GetNode | iota-client/src/client.rs:235-238 | some member of the pool exactly when the pool is non-empty, otherwise `SyncedNodePoolEmpty`; the pool is unchanged |
| NodePool.Client.GetPowProvider | iota-client/src/client.rs:254-256 | the miner carries the client's `local_pow` flag |
| NodePool.RemoteProviderNonceIsZero | iota-client/src/client.rs:129-138 | a client without local PoW hands out a miner whose nonce is always 0 |
| NodePool.SyncThenGetNode | iota-client/src/client.rs:220-238 | after a sync, `get_node` returns a configured node that answered healthy, and fails exactly when none did |
| NetworkId.FromLeBound | iota-client/src/client.rs:249 | `n` little-endian bytes hold a value below `256^n`, so 8 bytes fit a `u64` |
| NetworkId.ToLeFromLe | iota-client/src/client.rs:249 | decoding then re-encoding 8 bytes returns the same bytes |
| NetworkId.FromLeToLe | iota-client/src/client.rs:249 | encoding a value below `256^n` then decoding returns the value |
| NetworkId.FromLeIsSum | iota-client/src/client.rs:249 | the `from_le_bytes` value is the positional sum of the bytes, byte `k` at weight `256^k` |
| NetworkId.NetworkIdOf | iota-client/src/client.rs:243-250 | the network id is the sum of the first 8 digest bytes at weights `256^k` and lies below 2^64 |
| NetworkId.GetNetworkId | iota-client/src/client.rs:241-251 | a failed `get_info` is passed on; otherwise the id is decoded from the hash of the node's network name |
| NetworkId.NetworkIdDeterministic | iota-client/src/client.rs:241-251 | the id depends only on the network name reported by the node |
| NetworkId.NetworkIdEncodesDigest | iota-client/src/client.rs:245-249 | the id written back as 8 little-endian bytes is the first 8 bytes of the digest |
| Lifecycle.Build | iota-client/src/client.rs:447-453 | the builder's rejection becomes `TransactionError`; an accepted message is the one given |
| Lifecycle.BuildAndPost | iota-client/src/client.rs:447-457 | a refused message is never posted and fails with `TransactionError`; an accepted one is posted as the last request; a success returns the id the node assigned to exactly that message; a failed post returns the node's error |
| Lifecycle.BuildAndPostDiscipline | iota-client/src/client.rs:447-457 | building then posting posts at most once, as the last request, and a success returns the node's id for exactly the posted message |
| Lifecycle.Promote | iota-client/src/client.rs:462-474 | the first request fetches tips; a tips error stops there, a network-id error stops after the info request; a success posted a payload-less message whose second parent is the promoted id (properties in `PromoteShape`, `PromoteBuildRefused`) |
| Lifecycle.PromoteShape | iota-client/src/client.rs:462-474 | a successful promotion fetched tips, then the network id, then posted a payload-less message with parents `(tips.0, promoted id)` on that network, and nothing else |
| Lifecycle.PromoteBuildRefused | iota-client/src/client.rs:465-470 | when the builder refuses the promotion message the result is `TransactionError` and nothing is posted |
| Lifecycle.Reattach | iota-client/src/client.rs:441-458 | the first request fetches the message; a message error stops there, a tips error stops after the tips request, a network-id error stops after the info request; a success carries the original message's payload (properties in `ReattachShape`, `ReattachWithoutPayload`, `ReattachBuildRefused`) |
| Lifecycle.ReattachShape | iota-client/src/client.rs:441-458 | a successful reattachment posted the original payload unchanged with parents `(tips.0, tips.1)` on the node's network, after fetching message, tips and network id |
| Lifecycle.ReattachWithoutPayload | iota-client/src/client.rs:447-453 | a message without payload stops with `MissingPayload` after the three fetches and posts nothing |
| Lifecycle.Retry | iota-client/src/client.rs:550-560 | the first request reads the metadata; a metadata error stops there; a success needs one of the two flags to be `Some(true)` (properties in `RetryPromotesFirst`, `RetryReattaches`, `RetryNoNeed`, `RetryPostsOnlyLast`) |
| Lifecycle.ReattachBuildRefused | iota-client/src/client.rs:447-453 | when the builder refuses the reattachment message the result is `TransactionError` after the message, tips and info requests, and nothing is posted |
| Lifecycle.RetryPromotesFirst | iota-client/src/client.rs:552-554 | `should_promote == Some(true)` promotes, whatever `should_reattach` says |
| Lifecycle.RetryReattaches | iota-client/src/client.rs:555-556 | otherwise `should_reattach == Some(true)` reattaches; an absent promote flag counts as false |
| Lifecycle.RetryNoNeed | iota-client/src/client.rs:552-558 | otherwise the result is `NoNeedPromoteOrReattach(id)` after reading the metadata only: no tips fetched, nothing posted |
| Lifecycle.RetryPostsOnlyLast | iota-client/src/client.rs:550-561 | every retry posts at most once, as its last request, and returns the id and message it posted |
| Collectors.DecodeFixed | iota-client/src/client.rs:382-383 | a fixed 32-byte buffer is filled exactly when the hex string decodes to 32 bytes |
| Collectors.DecodeOutput | iota-client/src/client.rs:374-389 | an output decodes exactly when both ids decode, the output is type 0 with an address of type 1, and the address decodes to 32 bytes; a wrong type gives `InvalidParameter("address type")`; the other fields are copied |
| Collectors.GetOutput | iota-client/src/client.rs:363-391 | a failed fetch is passed on; a returned output is an Ed25519 output with a 32-byte address |
| Collectors.LookupAll | iota-client/src/client.rs:406-411 | a gathering that succeeds made every lookup successfully (membership in `LookupAllMembers`, failure in `LookupAllFails`) |
| Collectors.Candidates | iota-client/src/client.rs:397-411 | the gathered set holds every explicit id, and a gathering that succeeds made every lookup successfully |
| Collectors.LookupAllMembers | iota-client/src/client.rs:406-411 | when every lookup succeeds, an id is gathered exactly when some lookup reported it |
| Collectors.LookupAllFails | iota-client/src/client.rs:406-407 | gathering fails with the error of the first failing lookup, all earlier lookups succeeding |
| Collectors.LookupAllSucceeds | iota-client/src/client.rs:406-411 | a successful gathering made every lookup successfully |
| Collectors.InsertAll | iota-client/src/client.rs:400-402 | the insertion loop adds exactly the elements of the sequence to the set |
| Collectors.CollectCandidates | iota-client/src/client.rs:395-411 | the explicit ids and the ids of each lookup, in a set; the lookups are made in order, all of them on success; on failure the last lookup made is the failing one and every lookup before it succeeded, so the first failure stops them |
| Collectors.FetchEach | iota-client/src/client.rs:414-418 | each id of the set is queried exactly once (no repetition, none missing on success), results are the answers in query order, the first failed query aborts, and the result holds one answer per distinct id exactly when every query succeeds |
| Collectors.QueriedOnceOutcome | iota-client/src/client.rs:414-418 | querying each id once succeeds exactly when every id's query succeeds, with one answer per distinct id, and otherwise fails with some id's error |
| Collectors.FindOutputs | iota-client/src/client.rs:394-419 | the address lookups are made in order, all of them on success; a failed one is the last made, every earlier one succeeded, and it aborts before any output is queried; otherwise every distinct output id is decoded exactly once, and the call succeeds, with one output per distinct id, exactly when every decode does |
| Collectors.FindMessages | iota-client/src/client.rs:497-524 | the index lookups are made in order, all of them on success; a failed one is the last made, every earlier one succeeded, and its error is returned; otherwise every distinct message id is fetched exactly once, the call succeeds with one message per distinct id exactly when every fetch does, and a failed fetch is a `Panic` |
| Collectors.FoundOutputsAreEd25519 | iota-client/src/client.rs:414-417 | every output `find_outputs` returns is an Ed25519 output of a gathered id |
| Collectors.DuplicatesQueryNothingMore | iota-client/src/client.rs:397-402 | repeating an explicit id changes nothing that is queried |
| Collectors.RepeatedLookupAddsNothing | iota-client/src/client.rs:406-411 | a further lookup that reports only ids already gathered changes nothing that is queried |
| Collectors.GetAddressBalances | iota-client/src/client.rs:536-546 | every address is paired with its balance, in order; the first failing query aborts with its error and no later address is queried |

## Left out

- HTTP and JSON plumbing (`get_node_health`, `get_info`, `get_tips`, `post_message`, `get_message`, `get_address`, the `parse_response!` macro): their answers are parameters that may fail. Each request's own `get_node` call is not modelled; the node answers are a fixed snapshot for one operation.
- `start_sync_process` and `Drop for Client` (a tokio task, `select!` and a broadcast channel): concurrency and cancellation are not modelled. The kill branch at iota-client/src/client.rs:213 does not leave the loop, so syncing continues after a kill message.
- The lock around the pool (`Arc<RwLock<…>>`): `Client.pool` is a plain field and the model is sequential.
- MQTT (`subscriber`, topic handlers, broker options): broker I/O.
- The local miner (`MinerBuilder`, `num_cpus`): a foreign parallel search; its `f64` target score is a `real`.
- BLAKE2b, hex decoding, key derivation and `Message::builder().finish()`: foreign library code, modelled as parameters. The builder is an acceptance predicate. An accepted message has exactly the fields given; its nonce is not modelled.
- `GetAddressesBuilder` is not part of this model. A batch is modelled as 20 per-index derivations, in order, where the first failure fails the batch.
- Unspent.GetUnspentAddress: the source stops at the first index that fails to derive, whose balance query fails, or whose balance is zero; it loops forever only when every index from the start derives with a non-zero balance. The model requires a ghost witness index that is not busy (one of those three stops).
- Unspent.GetUnspentAddress: the `usize` cursor is unbounded here, so overflow of `index + 20` is not modelled.
- Lifecycle.Reattach: the `unwrap` on a missing payload panics in the source; the model returns `MissingPayload` at the same point.
- Collectors.FindMessages: the `unwrap` on a failed fetch panics in the source; the model returns `Panic` with the unwrapped error.
- Collectors.DecodeFixed: the hex crate checks the string length before its characters; the model decodes first and then compares lengths, so a malformed string of the wrong length may report a different error.
- NodePool.Client.GetNode and Collectors.FetchEach: a hash set's iteration order is unspecified, so the model picks an arbitrary element.
- `NoNeedPromoteOrReattach` carries the message id itself rather than its hex string.
- The URL built for `get_output` (transaction id plus little-endian output index in hex) is HTTP plumbing and is not modelled.

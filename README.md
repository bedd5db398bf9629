# pingPongBot core, modelled in Dafny

The bot watches a contract for Ping events and answers each one with a `pong`
transaction. This project models the parts of the bot that carry its guarantees:

- **PersistenceModule** (`persistence.dfy`): one JSON file per key, the process-wide
  cached state, `loadState` with its fallbacks (`defaultValue || {}`, the catch block,
  `new Proxy` refusing a primitive), `getState`, `saveState`, and the proxy's `set`
  trap that saves the whole object after a top-level assignment. Objects have identity
  (`JsObject`), so the cache and the proxy target are the same object, and a write to a
  nested object is not seen by the proxy.
- **ContractInteractionModule** (`contract.dfy`, `pending.dfy`):
  - the persisted nonce ledger of `getNonce`;
  - `callPong`, with the recursion of `sendTransaction` unrolled into a bounded loop
    that keeps the backoff schedule and the gas-price branch;
  - the in-memory `pendingTransactions` dictionary, kept in property order;
  - `processQueue`: filter by nonce, stable sort by nonce, re-send.
- **ProviderManager** (`providers.dfy`): `initializeProviders`, `getProvider`, and one
  step of the reconnect timer, both as written and as intended.
- **main.ts** (`bot_types.dfy`, `handler.dfy`, `bot.dfy`):
  - the persisted bot state and how it reads back from JSON;
  - boot from the state file;
  - settling the pending transaction of the previous run;
  - the new-block handler, as written and with the event index scoped to the block
    range.
- **listner.ts** (`listener.dfy`): the catch-up of `startListening` as written (it
  never runs) and as intended, `processPastEvents` with the error swallowing of
  `handlePingEvent`, and `stopListening`.

The chain, the clock and the RPC endpoints are parameters:

- `chainCount`: the answer of `getTransactionCount`.
- `respond(k)`: how attempt `k` of a submission ends.
- `accepts`: whether a re-sent transaction goes through.
- `up(url)`: whether an endpoint answers.
- `receiptStatus`: the status of a receipt.
- `chain`: the Ping events emitted, in block order.
- `ok(i)`: whether the pong of the `i`-th event of a range comes back.
- `currentBlock`: the chain head, which also stands for `'latest'`.

Where the bot's stated intent and its code disagree, the model follows the code:

- the event index is never reset after a block;
- a submission makes up to `maxRetries + 1` attempts;
- `pendingTransactions` lives in memory only;
- a truthy ledger entry is never raised to the chain's transaction count;
- the raised value `error.gasLimit * 1.2` is passed as the gas price;
- marking the pending transaction Mined at boot is not saved by itself (the next
  top-level assignment through the proxy saves the whole object, the nested write included);
- an unreadable state file gives the default without saving it.

## Model

| member | source | states |
|---|---|---|
| Json.PrimitiveToNumber | src/listner.ts:38 | ToNumber of a primitive, as `<` applies it: a number is itself, `undefined` is NaN, a digit string is non-negative |
| Persistence.Fallback | src/PersistenceModule.ts:67 | `defaultValue \|\| {}` is truthy, and it is the default unless the default is falsy, in which case it is `{}` |
| Persistence.Load | src/PersistenceModule.ts:38-69 | `loadState` always hands back a truthy value, either an object or the default; only an object is ever behind the saving proxy; a missing file gives `default \|\| {}`, proxied exactly when that is an object; an unreadable file or a stored primitive gives `default \|\| {}` unproxied; a stored object comes back as itself, proxied |
| Persistence.CachedByLoad | src/PersistenceModule.ts:44-51 | what `loadState` leaves in the process-wide cache: nothing new when the file cannot be read or parsed, the parsed value when it can, and `default \|\| {}` when there is no file |
| Persistence.SaveThenLoad | src/PersistenceModule.ts:11-15 | an object saved under a key loads back as that same object, behind the proxy |
| Persistence.SaveThenLoadPrimitive | src/PersistenceModule.ts:56 | a saved primitive never loads back: `new Proxy` throws and the catch block returns `default \|\| {}`, not proxied |
| Persistence.LoadOtherKey | src/PersistenceModule.ts:39 | writing one key's file changes neither what another key loads nor what that load caches |
| Persistence.Materialize | src/PersistenceModule.ts:50 | a parsed or literal value held as a new object, never proxied, reading as the value |
| Persistence.Store.constructor | src/PersistenceModule.ts:4 | the process-wide cache starts out `undefined` |
| Persistence.Store.SaveState | src/PersistenceModule.ts:11-15 | `saveState` overwrites the file of its key and no other file |
| Persistence.Store.LoadState | src/PersistenceModule.ts:38-69 | the handle reads as `Load`; it is proxied exactly when `Load` says so, under the key asked for; no file is written; the cache gets the assigned value, or is left alone when the read fails, and is the same object as the result |
| Persistence.Store.GetState | src/PersistenceModule.ts:24-29 | a truthy cache is handed back unchanged, whatever key is asked for; otherwise the result is what `loadState` of that key gives |
| Persistence.Store.SetField | src/PersistenceModule.ts:57-62 | the field is assigned; through the proxy the whole object is saved under the proxy's key; on a plain object no file changes |
| BotTypes.ParseStatus | src/config.ts:23-27 | the enum text parses to its member and only to it (both directions) |
| BotTypes.Encode | src/config.ts:29-38 | the JSON object of a bot state has both checkpoint numbers, and a truthy `pendingTxn` exactly when there is one |
| BotTypes.Decode | src/config.ts:29-38 | a decoded state has the checkpoint numbers the object holds, and a pending transaction exactly when `pendingTxn` is truthy |
| BotTypes.DecodeEncode | src/config.ts:29-38 | writing a bot state and reading it back gives the same state |
| BotTypes.DecodeSetIndex | src/main.ts:56 | assigning `lastProcessedEventIndex` changes only that part of the state |
| BotTypes.DecodeSetBlock | src/main.ts:58 | assigning `lastProcessedBlock` changes only that part of the state |
| BotTypes.DecodeMarkMined | src/main.ts:43 | assigning `pendingTxn.status = Mined` marks the pending transaction Mined and changes nothing else |
| BotTypes.DefaultState | src/main.ts:32-35 | the boot default is written as `{lastProcessedBlock: currentBlock, lastProcessedEventIndex: 0}` |
| BotTypes.Query | src/main.ts:50 | a block-range query holds no more events than the chain |
| BotTypes.QueryMembers | src/main.ts:50 | the query holds exactly the chain's events whose block lies in the range |
| BotTypes.QueryEmptyRange | src/main.ts:50 | a range ending below its start holds no event |
| BotTypes.QueryEmptyAbove | src/main.ts:50 | on a block-ordered chain, nothing from above the range's end is in the range |
| BotTypes.QueryPrefix | src/main.ts:50 | on a block-ordered chain, raising the end of the range only appends events |
| BotTypes.QuerySplit | src/main.ts:50 | on a block-ordered chain, two adjacent ranges together give the events of their union, in order |
| PendingTable.Lookup | src/contract/contractManager.ts:25-31 | `pendingTransactions[hash]` finds an entry with that hash, or there is none |
| PendingTable.LookupMember | src/contract/contractManager.ts:25-31 | in a dictionary, an entry is what its own key looks up |
| PendingTable.Put | src/contract/contractManager.ts:44 | assignment adds only the new entry: a new key goes at the end; in a dictionary (keys unique) an existing key keeps its place, its entry replaced, and every other entry stays where it was |
| PendingTable.PutLookup | src/contract/contractManager.ts:44 | after the assignment the key finds the new entry, every other key what it found before, and keys stay unique |
| PendingTable.Without | src/contract/contractManager.ts:55 | `delete` keeps exactly the entries whose key was not deleted |
| PendingTable.WithoutLookup | src/contract/contractManager.ts:55 | after the deletions a deleted key finds nothing, any other key what it found before |
| PendingTable.WithoutUnique | src/contract/contractManager.ts:55 | deleting keys keeps keys unique |
| PendingTable.RemoveLookup | src/contract/contractManager.ts:55 | after `delete t[hash]` that key finds nothing, every other key what it found before, and keys stay unique |
| PendingTable.Remove | src/contract/contractManager.ts:55-68 | `delete t[hash]` keeps exactly the entries with another hash |
| PendingTable.RemoveAfterPut | src/contract/contractManager.ts:44-55 | registering an entry and deleting it again is the same as deleting its key |
| PendingTable.WithoutNothing | src/contract/contractManager.ts:107 | deleting no key changes nothing |
| PendingTable.WithoutAdd | src/contract/contractManager.ts:107 | deleting one more key is deleting the larger set |
| PendingTable.Due | src/contract/contractManager.ts:98 | the filter keeps exactly the entries reserved below the nonce |
| PendingTable.SortedCons | src/contract/contractManager.ts:99 | an entry whose nonce is no greater than the head's can go in front of a sorted list |
| PendingTable.Insert | src/contract/contractManager.ts:99 | inserting keeps the list sorted by nonce and adds exactly the entry, which goes to the front unless the head has a lower nonce |
| PendingTable.SortByNonce | src/contract/contractManager.ts:99 | the sort result is in ascending nonce order and is a permutation of its input |
| PendingTable.WithNonceMembers | src/contract/contractManager.ts:99 | `WithNonce` keeps, in the order of the list, exactly the entries reserved with one nonce |
| PendingTable.InsertStable | src/contract/contractManager.ts:99 | an inserted entry goes in front of the entries sharing its nonce, and the entries of every nonce otherwise keep their order |
| PendingTable.SortByNonceStable | src/contract/contractManager.ts:99 | the sort is stable: the entries of each nonce come out in the order they went in |
| PendingTable.DueWithNonce | src/contract/contractManager.ts:98 | the filter keeps the entries of a nonce below the limit in dictionary order and drops those of any other nonce |
| PendingTable.SelectForResend | src/contract/contractManager.ts:97-100 | the re-send list is in ascending nonce order and holds exactly the entries below the nonce, as often as the filter does; entries of one nonce keep their dictionary order |
| Contract.ReservedNonce | src/contract/contractManager.ts:79-83 | the nonce handed out is the ledger's number for the address whenever that entry is truthy, and the chain count when it is missing or falsy |
| Contract.LedgerAfter | src/contract/contractManager.ts:79-84 | the ledger `getNonce` saves: the address's entry is the nonce handed out plus one, every other address's entry is as it was |
| Contract.FilesAfterReserve | src/contract/contractManager.ts:85 | `getNonce` rewrites the ledger file and no other file |
| Contract.ReservedEntry | src/contract/contractManager.ts:84-85 | after a reservation the ledger reads back the nonce handed out plus one, and can be stepped again |
| Contract.ReserveOtherAddress | src/contract/contractManager.ts:84-85 | a reservation for one address leaves every other address's entry as it was |
| Contract.Reservations | src/contract/contractManager.ts:78-87 | consecutive `getNonce` calls hand out one nonce per call, the first being what a single `getNonce` hands out |
| Contract.ReservationsCountUp | src/contract/contractManager.ts:78-87 | once a non-negative nonce is handed out, later calls count up by one from it, whatever the chain says, so no nonce is handed out twice |
| Contract.Pow2 | src/contract/contractManager.ts:62 | `2 ** retries` is at least 1 |
| Contract.Backoff | src/contract/contractManager.ts:62 | the backoff is at least one second |
| Contract.BackoffDoubles | src/contract/contractManager.ts:62 | the backoff starts at 1000 ms and doubles with each retry |
| Contract.Retry | src/contract/contractManager.ts:58-65 | the attempt after a failure keeps the nonce; after `UNPREDICTABLE_GAS_LIMIT` it goes at once with the raised value as gas price; otherwise it waits `2 ** retries * 1000` ms (`Backoff`, at least a second) and keeps the gas price |
| Contract.SendLoop | src/contract/contractManager.ts:46-72 | a run makes at least one attempt and at most one more than the retries left; its first attempt is the one the call was made with |
| Contract.SendLoopNonce | src/contract/contractManager.ts:52 | every attempt of a run uses the one reserved nonce |
| Contract.SendLoopOutcome | src/contract/contractManager.ts:51-70 | every attempt but the last failed; a sent run ends with a mined attempt; an exhausted run ends with the error of its last attempt, with no retries left |
| Contract.SendLoopLong | src/contract/contractManager.ts:58-65 | a run goes on past its first attempt only when that attempt failed with retries left |
| Contract.SendLoopEnds | src/contract/contractManager.ts:51-70 | a mined attempt, or a failure with no retries left, ends the run, returning the transaction or rethrowing the error |
| Contract.SendLoopSchedule | src/contract/contractManager.ts:58-65 | each later attempt follows a failure of the one before: at once with the raised gas value after `UNPREDICTABLE_GAS_LIMIT`, otherwise after `2 ** retries * 1000` ms with the same gas price |
| Contract.PongRunBounds | src/contract/contractManager.ts:42-76 | a `callPong` run makes at most `maxRetries + 1` attempts, all with one nonce, the first at once with no gas price of its own; an exhausted run made all of them |
| Contract.ResendStep | src/contract/contractManager.ts:104-107 | during the re-send loop an entry is still pending unless its key was deleted, and deleting it extends the deleted set |
| Contract.AcceptedStep | src/contract/contractManager.ts:102-111 | the set of re-sends that went through grows by an entry's hash exactly when that re-send goes through |
| Contract.ContractInteraction.constructor | src/contract/contractManager.ts:33-40 | a new module holds its store, address and `maxRetries`, with no pending transaction |
| Contract.ContractInteraction.GetNonce | src/contract/contractManager.ts:78-87 | hands out `ReservedNonce`, saves the ledger with the entry stepped past it, changes no other file, and leaves the cache holding the stepped ledger |
| Contract.ContractInteraction.SendTransaction | src/contract/contractManager.ts:44-72 | started with the hash registered as `{nonce, retries: 0}`, the loop makes exactly the attempts of `SendLoop` and ends as it does; either way out deletes the hash's entry |
| Contract.ContractInteraction.CallPong | src/contract/contractManager.ts:42-76 | reserves one nonce, registers `{nonce, retries: 0}` under the hash (the registration `SendTransaction` is started with), runs the retry loop with it, and leaves the dictionary without the hash's entry whether the run was sent or exhausted |
| Contract.ContractInteraction.Resend | src/contract/contractManager.ts:102-111 | after the loop, exactly the entries whose re-send went through are deleted; an error is swallowed and the loop goes on |
| Contract.ContractInteraction.ProcessQueue | src/contract/contractManager.ts:89-112 | reserves one nonce, re-sends `SelectForResend` of the pending entries below it, and deletes exactly the accepted ones |
| Providers.Live | src/ProviderManger.ts:37-45 | the pool holds no more endpoints than the configuration |
| Providers.LiveMembers | src/ProviderManger.ts:37-45 | the pool holds exactly the configured endpoints that answer |
| Providers.LiveStep | src/ProviderManger.ts:38-44 | one more configured endpoint joins the pool exactly when it answers |
| Providers.Urls | src/ProviderManger.ts:4 | the pool's endpoints, one per member |
| Providers.UrlsReplace | src/ProviderManger.ts:56 | a new connection to the same endpoint leaves the pool's endpoints as they were |
| Providers.Rotate | src/ProviderManger.ts:60 | `(i + 1) % n` stays inside the pool and moves to the next member, wrapping to 0 |
| Providers.RotateTimesBelow | src/ProviderManger.ts:60 | fewer than `n` failed reconnects in a row move the index that many places round the pool |
| Providers.RotateFullCycle | src/ProviderManger.ts:60 | `n` failed reconnects in a row bring the index back where it was |
| Providers.RotationVisitsAll | src/ProviderManger.ts:60 | within `n` failed reconnects in a row every member of the pool has its turn |
| Providers.ProbeMisaligned | src/ProviderManger.ts:55 | with endpoints a, b, c of which only b answered, the pool is [b], yet the reconnect step probes a |
| Providers.ProviderManager.constructor | src/ProviderManger.ts:9-12 | a new manager holds the configured endpoints, an empty pool, index 0, and no timer |
| Providers.ProviderManager.ConnectAll | src/ProviderManger.ts:38-45 | after the loop the pool's endpoints are exactly the live configured ones, in configuration order |
| Providers.ProviderManager.InitializeProviders | src/ProviderManger.ts:37-50 | fills the pool with the live endpoints, index 0, and arms the timer exactly when the pool is not empty |
| Providers.ProviderManager.GetProvider | src/ProviderManger.ts:25-35 | fills an empty pool first; fails with "No available providers" exactly when the pool stays empty; otherwise hands out the member at the index and leaves a filled pool alone |
| Providers.ProviderManager.ReconnectAsWritten | src/ProviderManger.ts:53-64 | probes the configured URL at the pool's index; on success that connection replaces the member in use, on failure only the index rotates |
| Providers.ProviderManager.Reconnect | src/ProviderManger.ts:53-64 | probes the endpoint of the member in use; the pool keeps its endpoints; on success only that member gets a new connection, on failure only the index rotates |
| BlockHandler.FirstFailure | src/main.ts:52-57 | the walk stops at the first position whose pong throws, after a run of successes, or at the end |
| BlockHandler.FirstFailureAt | src/main.ts:52-57 | any position reached by successes that ends at a failure or at the end is where the walk stops |
| BlockHandler.Walk | src/main.ts:52-57 | the walk moves only the index, by one per event ponged; a run that ends without completing either had an unusable index or stopped at a pong that threw, which is the one at the index the walk stopped at |
| BlockHandler.WalkCompletes | src/main.ts:52-58 | a walk completes exactly when the index is usable and every pong from the index to the end goes out (both directions): a pong that throws keeps the run from completing |
| BlockHandler.WalkPrefix | src/main.ts:52-57 | a walk from an index inside the events ends no lower and still inside them, having ponged exactly the events in between; it completes exactly at the end and leaves the block alone |
| BlockHandler.HandleBlock | src/main.ts:48-59 | the block moves to `blockNumber` exactly when the run completes; the index never goes down and the pending transaction is untouched; a run that recorded a failed pong does not complete |
| BlockHandler.HandleBlockCheckpoint | src/main.ts:48-59 | the index never goes down, the pending transaction is untouched, the block moves exactly when the run completes, and the events ponged are those between the old and new index |
| BlockHandler.HandleBlockAllSent | src/main.ts:48-59 | when every pong goes out, the run completes at the new block, the index ends at the larger of the old index and the event count, and no event below the old index is ponged again |
| BlockHandler.HandleBlockFailure | src/main.ts:52-58 | when a pong from the index on throws, the run does not complete and the block stays; a run that does not complete has its index at the failing event, every event before it having gone out |
| BlockHandler.Replay | src/main.ts:48-59 | over any sequence of handler runs the pending transaction is untouched and every event ponged is an event of the chain |
| BlockHandler.IndexNeverReset | src/main.ts:48-59 | over any sequence of handler runs `lastProcessedEventIndex` only grows |
| BlockHandler.QueryThree | src/main.ts:50 | the events of a range on a chain of three events |
| BlockHandler.ChainQueries | src/main.ts:50 | the ranges queried by the runs on the three-event chain |
| BlockHandler.SkipsEvent | src/main.ts:48-59 | with events in blocks 11, 12 and 13, handler runs for blocks 12, 13 and 14 never pong the event of block 13 |
| BlockHandler.HandleBlockScoped | src/main.ts:48-59 | a completed scoped run moves the block to `blockNumber` and resets the index to 0; a run that stops early leaves the block and does not lower the index; the pending transaction is untouched |
| BlockHandler.ScopedRunIn | src/main.ts:48-59 | a scoped run (`ScopedRun`) pongs only events of the chain in the blocks after the checkpoint's, up to the new block |
| BlockHandler.ReplayScoped | src/main.ts:48-59 | over any sequence of scoped runs the pending transaction is untouched |
| BlockHandler.ScopedStep | src/main.ts:48-59 | one scoped run keeps the account of what has been ponged |
| BlockHandler.ScopedStepCompletes | src/main.ts:58 | a completed scoped walk has ponged every event of the blocks up to the new block |
| BlockHandler.AscendingFrom | src/main.ts:48 | block numbers that never go down satisfy the ordering the replay proof uses |
| BlockHandler.ScopedReplayAccounts | src/main.ts:48-59 | the account is kept over any number of scoped runs whose block numbers never go down |
| BlockHandler.ScopedExactlyOnce | src/main.ts:48-59 | the scoped handler pongs, in chain order, every event of the finished blocks exactly once, then the events of the range being worked on up to its index |
| BlockHandler.ScopedAllSent | src/main.ts:48-59 | when every pong goes out, the scoped checkpoint ends at the last block with index 0 |
| BlockHandler.ScopedAllDone | src/main.ts:48-59 | when every pong goes out, scoped runs from index 0 pong exactly the events of the blocks after the checkpoint's up to the last run's, in chain order |
| BlockHandler.ScopedPongsAll | src/main.ts:48-59 | on the chain of `SkipsEvent` the scoped handler pongs all three events |
| Bot.BootDefault | src/main.ts:32-35 | the boot default is an object that reads as the default state at the chain head |
| Bot.FirstBoot | src/main.ts:31-35 | with no state file the boot starts at the chain head with index 0, and its writes are saved |
| Bot.UnusableFileBoot | src/main.ts:31-35 | an unreadable state file, or one holding a primitive, also boots at the chain head, but none of the run's writes reaches the file |
| Bot.SavedCheckpointResumes | src/main.ts:31-35 | after the state object was saved, a boot resumes from that checkpoint, whatever the chain head |
| Bot.MarkMined | src/main.ts:43 | the pending transaction is marked Mined and nothing else changes |
| Bot.Bot.constructor | src/main.ts:31-35 | the boot holds what `loadState` gives for the bot state key, proxied as `loadState` says, writes no file, and is valid exactly when the loaded object reads as a bot state |
| Bot.Bot.ResolvePending | src/main.ts:38-47 | a pending transaction not yet Mined is marked Mined in memory on a status-1 receipt, with no file written; on any other receipt its hash is ponged again, with the nonce, files and dictionary effects of `callPong`; the boot goes on unless that pong was exhausted |
| Bot.Bot.WalkEvents | src/main.ts:52-57 | the loop ends in the state `Walk` gives; through the proxy each index assignment saves the whole state under the bot state's key; no file other than that one and the nonce ledger changes |
| Bot.Bot.OnNewBlock | src/main.ts:48-59 | one handler run ends as `HandleBlock` on `[lastProcessedBlock, blockNumber]` says, saving the state under the bot state's key when anything was assigned through the proxy; no file other than that one and the nonce ledger changes |
| Bot.Bot.OnNewBlockScoped | src/main.ts:48-59 | the handler run on `[lastProcessedBlock + 1, blockNumber]`, resetting the index when the walk completes, ends as `ScopedRun` says; the saving and the files untouched are as for `OnNewBlock` |
| Listener.ToPrimitive | src/listner.ts:38 | a relational operator turns an object into a primitive and leaves a primitive as it is |
| Listener.LessThan | src/listner.ts:38 | `v < n` on a number `v` is the integer comparison |
| Listener.ObjectNeverLess | src/listner.ts:38 | a plain object is never below a number |
| Listener.LoadedBlockNeverBehind | src/listner.ts:32-38 | `loadState(lastProcessedBlockKey, 0) \|\| 0` is always an object, so it is never below the chain head |
| Listener.StoredBlock | src/listner.ts:32-35 | the stored block number, or 0 when there is none |
| Listener.CatchUpSkipped | src/listner.ts:32-45 | with block 5 stored and the chain at block 10, the comparison is false and the catch-up is skipped |
| Listener.PingHashes | src/listner.ts:60-65 | the `hash` argument of each event, in order |
| Listener.FailedHashes | src/listner.ts:51-58 | no more hashes fail than there are events |
| Listener.FailedHashesMembers | src/listner.ts:51-58 | a hash failed exactly when the pong of an event carrying it threw |
| Listener.NoFailures | src/listner.ts:51-58 | when every pong comes back, no hash fails |
| Listener.EventListener.constructor | src/listner.ts:19-29 | a new listener holds its store and key and is not listening |
| Listener.EventListener.ProcessPastEvents | src/listner.ts:60-65 | every event is attempted in order; the failed ones are exactly those whose pong threw, the error being swallowed |
| Listener.EventListener.StartListeningAsWritten | src/listner.ts:31-49 | no past event is processed and the listener becomes active; no file is written; the process-wide cache is left as `loadState` of the block key leaves it |
| Listener.EventListener.StartListening | src/listner.ts:31-49 | when the stored block is behind the head, the events of the blocks after it up to the head are processed in chain order; the listener becomes active |
| Listener.EventListener.StopListening | src/listner.ts:67-72 | the listener is no longer active |
| Listener.CatchUpCovers | src/listner.ts:38-45 | the intended catch-up attempts exactly the chain's events after the stored block up to the head |

## Left out

- Console logging, timers (`setTimeout`, the reconnect interval, the backoff waits themselves), the file system calls and the `Proxy` machinery are not modelled as such. The backoff delays are recorded as values on each attempt; the file system is a map from key to record.
- `Providers.ProviderManager.ReconnectAsWritten` and `Providers.ProviderManager.Reconnect` model one run of the timer callback. The rescheduling in `finally` is not modelled.
- `connectToProvider` is the `up(url)` oracle: connection objects are modelled by their endpoint and a serial number.
- `getFilterEvents`, which main.ts calls on the contract module, is not part of this model. It is taken to be the inclusive block-range query `Query`.
- The filter arguments `Ping(null, fromBlock, toBlock)` in listner.ts are event topic filters, not a block range. `Listener.EventListener.StartListening` uses the block range the surrounding code evidently means.
- main.ts passes three arguments to a constructor that takes two, handing it the store as its configuration. The model takes `maxRetries` and the store as intended.
- `Contract.SendLoop`: the value `error.gasLimit * 1.2` is a floating-point product. It is kept as an integer carried by the error, not computed.
- Arrays, NaN and fractional numbers are not part of the JSON model. A state file holding an array is not modelled.
- `Json.PrimitiveToNumber` reads a string as a plain decimal digit string only. Signed, space-padded, fractional and hexadecimal strings give NaN there, where JavaScript's `ToNumber` gives a number (`"-5"` is -5). Only objects reach the comparison this function serves, so no property of the model depends on it.
- `this.nonces` in the contract module is never used and is not modelled.
- `Contract.ContractInteraction.GetNonce` requires `LedgerUsable`: a stored ledger entry that is truthy but not a number would make `nonces[address]++` produce NaN or a string, and that is not modelled.
- `Bot.Bot.WalkEvents`, `Bot.Bot.OnNewBlock` and `Bot.Bot.OnNewBlockScoped` take the outcome of each pong as `ok(i)` instead of calling `CallPong`. The nonce ledger write and the dictionary entry of each `callPong` are not modelled there. Their files contract leaves the nonce ledger's file open and constrains only the bot state's file and the other files. The effects of `callPong` are stated once, on `Contract.ContractInteraction.CallPong`.
- `Listener.EventListener.ProcessPastEvents` also takes the outcome of each pong as `ok(i)`, for the same reason.
- Each handler run, each `callPong` and each `processQueue` is modelled as one atomic step, and the steps run one after another. In the source they overlap at every `await` (`tx.wait`, the backoff sleeps). Two handler runs that overlap start from the same `lastProcessedEventIndex` and can pong the same event twice; that interleaving is not modelled.
- Because steps do not overlap, the dictionary is empty between any two operations of the model. The constructor starts it empty, `CallPong` ends by deleting the entry it registered, and `ProcessQueue` only deletes. `Contract.ContractInteraction.ProcessQueue`, `Contract.ContractInteraction.Resend` and `PendingTable.SelectForResend` are stated for any dictionary, including the non-empty ones that only overlapping calls produce. No file of the bot calls `processQueue`.
- `Bot.Bot.OnNewBlock`, `Bot.Bot.WalkEvents` and `Bot.Bot.OnNewBlockScoped` require that the held state reads as a bot state. A state object whose checkpoint fields are not numbers would make the handler compute with `undefined` or strings, and that is not modelled.
- The listener registers no live Ping handler in the source, and its `off` call removes a freshly bound function that was never registered. `Listener.EventListener.StopListening` therefore models only the flag.
- `'latest'` is modelled as the chain head `currentBlock` read just before.
- The restart loop of main.ts around `getProvider` and the `.catch` of `main()` are not modelled.

## Findings

| source | as written | input that shows it | evidently intended | confidence | as-written member | corrected member |
|---|---|---|---|---|---|---|
| src/listner.ts:32-38 | `loadState(key, 0) \|\| 0` is always an object (`{}` when the number cannot be proxied), and an object compared with a number is never less | block 5 stored, chain head 10: no past event is processed | compare the stored block number and catch up on blocks 6 to 10 | high, not executed | Listener.EventListener.StartListeningAsWritten, Listener.CatchUpSkipped | Listener.EventListener.StartListening, Listener.CatchUpCovers |
| src/ProviderManger.ts:55 | the reconnect step probes `providerUrls[currentProviderIndex]`, an index into the configuration, although the pool holds only the endpoints that answered | endpoints a, b, c with only b up at start: pool [b], the probe goes to a | probe the endpoint of the pool member in use | high, not executed | Providers.ProviderManager.ReconnectAsWritten, Providers.ProbeMisaligned | Providers.ProviderManager.Reconnect, Providers.UrlsReplace |
| src/main.ts:48-59 | `lastProcessedEventIndex` is never reset when a block is done, and the next query starts at `lastProcessedBlock` again | events in blocks 11, 12, 13, checkpoint at 10, runs for blocks 12, 13, 14: the event of block 13 is never ponged | query from `lastProcessedBlock + 1` and reset the index to 0 when the block is done, so that every event is ponged exactly once | medium, not executed | BlockHandler.SkipsEvent, BlockHandler.IndexNeverReset, Bot.Bot.OnNewBlock | BlockHandler.ScopedExactlyOnce, BlockHandler.ScopedPongsAll, Bot.Bot.OnNewBlockScoped |

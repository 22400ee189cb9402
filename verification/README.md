# nft-marketplace event pipeline, in Dafny

This project models the sequential logic of the nft-marketplace backend and of one frontend service. The backend scans an Ethereum node for ERC-20 `Transfer` and `Approval` logs, decodes them, and pushes them to browsers over a WebSocket hub once per tick. It models five pieces:

- **Log decoding and partitioning** (`events.dfy`, `scanner.dfy`).
  - `processTransferEvent` and `processApprovalEvent` read the two indexed addresses from the low 20 bytes of topics 1 and 2. They read the `uint256` amount from the first 32-byte data word, as the "Events" section of EIP-20 and the Solidity Contract ABI Specification lay out.
  - `processEvents` routes a stream of tagged logs into a Transfer list and an Approval list. It drops undecodable logs and stamps each event with block number, transaction hash and contract.
  - `scanForEvent` turns one `FilterLogs` answer into a tagged stream.
- **Batch orchestration** (`batch.dfy`, `fanin.dfy`).
  - `BatchScanEvents` sizes its channel at 100 slots per scanner. It starts one scanner per (config, event type) pair and decodes whatever order the scanners' outputs arrive in.
  - That arrival order is modelled as an explicit `schedule` that picks the next stream to read (`FanIn.Merge`). It is proved to be an interleaving, and every interleaving is proved reachable.
  - `ScanMultipleContracts` builds one config per address with the default block bounds.
  - `ScanTransferEvents` is the single-contract entry point.
- **Broadcast hub** (`hub.dfy`). Clients are registered with a 256-slot send queue. Register, unregister and broadcast are steps of a state machine, and broadcast uses a drop-on-full policy.
- **Cron tick** (`cron.dfy`, `decimal.dfy`).
  - The block window advances as `from := to; to := Itoa(Atoi(to) + 1000)`, following Go's `strconv` semantics and 64-bit wrap-around.
  - Each tick's scan result is wrapped in a `cron_tick` event, with `{}` as the message when serialization fails.
- **Frontend handler registry** (`handlers.dfy`). `addMessageHandler` and its remover, and the dispatch loop of `onmessage`.

Supporting modules:

- `wrappers.dfy`: `Option` and `Result`.
- `seqs.dfy`: generic facts about splitting and joining sequences.
- `bytes.dfy`: bytes, 32-byte words, 20-byte addresses and big-endian numbers.
- `models.dfy`: the hub's `Event` record.

Everything outside the process becomes a parameter of the model:

- The chain client: `Chain.dial`, `Chain.filterLogs` and `Chain.keccak`.
- `common.HexToAddress` on strings.
- The JSON encoder and decoder, the clock's timestamp, and the order in which a Go map is ranged over.
- The contract address and the first window's bounds, which the cron service reads from the environment.

## Model

| member | source | states |
|---|---|---|
| Events.UnpackUint256 | backend/evm/scan_transfer_events.go:218-222 | unpacking the amount succeeds exactly when the data holds at least one 32-byte word, and the amount is below 2^256 |
| Bytes.BigEndianOfEncoding | backend/evm/scan_transfer_events.go:218 | reading back an n-byte big-endian encoding of a number below 256^n gives the number |
| Bytes.EncodingOfBigEndian | backend/evm/scan_transfer_events.go:218 | re-encoding the value of a byte string at its own length gives the string back |
| Events.UnpackOfEncoding | backend/evm/scan_transfer_events.go:218 | the amount an encoder writes as the first data word is read back, whatever bytes follow |
| Events.ProcessTransferEvent | backend/evm/scan_transfer_events.go:208-225 | on a log with at least three topics, decoding succeeds iff the data holds a word; on success `from`/`to` are the low 20 bytes of topics 1 and 2 and the provenance fields are still zero |
| Events.ProcessApprovalEvent | backend/evm/scan_transfer_events.go:228-245 | the same for `owner`/`spender` of an Approval log |
| Events.DecodeEncodedTransfer | backend/evm/scan_transfer_events.go:211-218 | decoding the log a token emits for `Transfer(from, to, value)` gives back exactly `from`, `to` and `value` |
| Events.DecodeEncodedApproval | backend/evm/scan_transfer_events.go:231-238 | decoding the log a token emits for `Approval(owner, spender, value)` gives back exactly `owner`, `spender` and `value` |
| Events.ProcessEvents | backend/evm/scan_transfer_events.go:178-205 | each list is no longer than the number of inputs of its kind |
| Events.Contribution | backend/evm/scan_transfer_events.go:184-200 | one log adds its reference decoding, stamped with the log's block, transaction and contract, to the list of its kind when it decodes, and nothing otherwise |
| Events.ProcessEventsSound | backend/evm/scan_transfer_events.go:183-201 | every output event is the reference decoding of some decodable input of its own kind, with that input's block, transaction and contract |
| Events.ProcessEventsComplete | backend/evm/scan_transfer_events.go:183-201 | every decodable input reaches the list of its kind |
| Events.ProcessSingleEvent | backend/evm/scan_transfer_events.go:184-200 | one log yields its stamped event in the list of its kind when it decodes, and nothing otherwise |
| Events.ProcessEventsConcat | backend/evm/scan_transfer_events.go:183-201 | processing distributes over concatenation, so each list is the in-order subsequence of decoded inputs of that kind |
| Events.ProcessEventsPermutation | backend/evm/scan_transfer_events.go:183-201 | reordering the input stream leaves the multiset of each output list unchanged |
| Scanner.EventSignature | backend/evm/scan_transfer_events.go:133-142 | Transfer and Approval map to their fixed signatures, and every other kind has none |
| Scanner.FilterQuery | backend/evm/scan_transfer_events.go:148-153 | the query keeps the block range as given and accepts exactly the logs of the one contract whose topic 0 is the signature's hash |
| Scanner.TagLogs | backend/evm/scan_transfer_events.go:165-174 | one entry per log in log order, carrying the scanner's kind and contract with the log's block, hash, topics and data |
| Scanner.ScanForEvent | backend/evm/scan_transfer_events.go:132-175 | an unknown kind or a failed `FilterLogs` gives no output; otherwise the query has the given bounds, the one contract and the signature hash as topic 0, and the output is the tagged logs |
| Scanner.ScanOutputTagged | backend/evm/scan_transfer_events.go:166-168 | every emitted entry carries the scanner's own kind, which is Transfer or Approval, and its own contract |
| FanIn.MergeLength | backend/evm/batch_scanner.go:59-66 | the consumer receives as many items as all scanners sent together, whatever the schedule |
| FanIn.MergeIsInterleaving | backend/evm/batch_scanner.go:59-66 | whatever the schedule, the merged stream holds each scanner's output in that scanner's order and nothing else |
| FanIn.EveryInterleavingIsAMerge | backend/evm/batch_scanner.go:59-66 | every interleaving of the scanners' outputs is produced by some schedule |
| FanIn.MergeMultiset | backend/evm/batch_scanner.go:59-66 | the merged stream holds exactly the multiset union of all scanners' outputs |
| FanIn.MergeItemsFromStreams | backend/evm/batch_scanner.go:59-66 | every merged item was emitted by some scanner |
| Batch.Jobs | backend/evm/batch_scanner.go:49-57 | the number of scanners started is the summed event-type count of the configs |
| Batch.JobsArePairs | backend/evm/batch_scanner.go:49-57 | scanner number PairIndex(i, j) scans config i's contract and bounds for its j-th event type, duplicates included |
| Batch.PairIndexInjective | backend/evm/batch_scanner.go:49-57 | distinct (config, event type) pairs get distinct scanners |
| Batch.BufferSize | backend/evm/batch_scanner.go:35-40 | the channel capacity is 100 times the number of scanners |
| Batch.BatchScanEvents | backend/evm/batch_scanner.go:22-69 | an empty RPC URL and a failed dial are the only errors, and the scan succeeds exactly when the URL is set and the dial works; on success the lists are `processEvents` of some interleaving of the scanners' outputs, and no configs give two empty lists |
| Batch.BatchScanScheduleIndependent | backend/evm/batch_scanner.go:59-68 | once connected, any two arrival orders succeed and give the same multisets of Transfer and of Approval events |
| Batch.BatchScanKeepsEveryDecodableLog | backend/evm/batch_scanner.go:49-68 | a decodable log from any scanner appears, stamped, in the result list of its kind |
| Batch.FromBound | backend/evm/batch_scanner.go:75-80 | the lower bound is never nil, and an empty string means block 0 |
| Batch.ToBound | backend/evm/batch_scanner.go:82-87 | the upper bound is nil ("latest") exactly when the string is empty |
| Batch.BoundsOfItoa | backend/evm/batch_scanner.go:75-87 | a block number written with `strconv.Itoa` is accepted by `SetString` and read back as the same number by both bounds |
| Batch.BuildConfigs | backend/evm/batch_scanner.go:74-99 | one config per address in input order, each scanning `[Transfer, Approval]`; an empty lower bound means block 0 and an empty upper bound means "latest" |
| Batch.BuildConfigsScannerCount | backend/evm/batch_scanner.go:89-99 | scanning n addresses starts exactly 2n scanners |
| Batch.ScanMultipleContracts | backend/evm/batch_scanner.go:72-103 | the errors are exactly the batch scan's, success exactly when connected, and on success the lists are `processEvents` of some interleaving of the outputs of two scanners per address; no addresses give two empty lists |
| Batch.ArgsConfig | backend/evm/scan_transfer_events.go:82-102 | the config scans the contract `args[0]` names, and it is exactly the config `ScanMultipleContracts` builds for that one address when an absent block argument stands for an empty bound |
| Batch.ScanTransferEvents | backend/evm/scan_transfer_events.go:65-80 | missing arguments are a usage error reported first, then an empty RPC URL, then a failed dial; with an address and a connection the scan succeeds |
| Batch.ScanTransferEventsIsOneConfigBatch | backend/evm/scan_transfer_events.go:101-128 | given an address, the single-contract scan equals a batch scan of the one config its arguments describe |
| Batch.ScanTransferEventsIsScanMultipleContracts | backend/evm/scan_transfer_events.go:65-128 | given an address, the single-contract scan returns what `ScanMultipleContracts` returns for that one address and the same block arguments, errors included |
| Decimal.Atoi | backend/cron/service.go:55 | the result is a 64-bit integer; a decimal string gives its value clamped to that range; a digit run that overflows gives the bound of its sign even when text follows; other text that is not a number gives 0 |
| Decimal.Wrap64 | backend/cron/service.go:56 | the result is in the 64-bit range and congruent to the input modulo 2^64, and equals it when the input fits |
| Decimal.IsDecimal | backend/evm/batch_scanner.go:77 | `SetString(s, 10)` accepts exactly a digit or a sign in front, digits everywhere else, and at least one digit |
| Decimal.DecimalValue | backend/evm/batch_scanner.go:77 | the value is negative only after a minus sign, positive only without one, and smaller than 10^k in size for k digits |
| Decimal.Itoa | backend/cron/service.go:56 | the text starts with a minus sign exactly for negative numbers and is followed by digits with no leading zero |
| Decimal.ItoaIsDecimal | backend/cron/service.go:56 | `Itoa` writes a decimal string whose value is the number formatted |
| Decimal.ItoaOfCanonical | backend/cron/service.go:56 | formatting the value of decimal text with no plus sign, no leading zero and no "-0" writes the same text again |
| Decimal.AtoiOfItoa | backend/cron/service.go:55-56 | parsing a formatted 64-bit integer gives it back |
| Cron.Advance | backend/cron/service.go:53-56 | the new lower bound is the old upper bound; the new upper bound is numeric text worth `Atoi(new lower) + 1000`, wrapped past the 64-bit maximum |
| Cron.WindowsAdvanceByStep | backend/cron/service.go:53-56 | windows are contiguous tick after tick, and the upper bound grows by 1000 per tick |
| Cron.LaterWindowsAreNumeric | backend/cron/service.go:53-56 | from the third tick (k >= 2, counting from 0) on both bounds are numeric and the window is exactly 1000 blocks wide |
| Cron.Tick | backend/cron/service.go:53-76 | the window advances whatever the scan returned, and the emitted event is named `cron_tick` with the serialized envelope or `{}` as its message |
| Cron.TickMessageDecodes | backend/cron/service.go:58-76 | with a decoder that inverts the encoder, the message reads back as the scan's two lists and the timestamp, or as empty lists when the scan failed; an envelope that cannot be encoded is sent as `{}` |
| Cron.ServiceTick | backend/cron/service.go:46-76 | one ticker case scans the window with `ScanMultipleContracts` for the configured contract, starts the next window where this one ended, and emits a `cron_tick` event |
| Cron.ServiceTickCarriesScan | backend/cron/service.go:46-76 | with an inverse decoder, the tick's message reads back as the lists `ScanMultipleContracts` returned for the window, or empty lists when the URL is unset or the dial failed |
| Hub.Initial | backend/websocket/handler.go:38-45 | a new hub has no clients and no channels and satisfies the invariant |
| Hub.Close | backend/websocket/handler.go:61 | closing marks the channel closed and keeps its queued messages and capacity; a channel is never closed twice, since that panics in Go |
| Hub.Register | backend/websocket/handler.go:52-55 | the new client is registered with an empty open queue of capacity 256 and nothing else changes; the invariant is kept |
| Hub.Unregister | backend/websocket/handler.go:57-63 | a registered client is removed and its queue closed; an unknown client changes nothing; the invariant is kept |
| Hub.UnregisterIdempotent | backend/websocket/handler.go:57-63 | unregistering twice equals unregistering once, so no queue is closed twice |
| Hub.Offer | backend/websocket/handler.go:82-86 | messages already queued stay in place and in order; the payload is added after them when there is room; the channel is closed exactly when it was full; the capacity bound is kept |
| Hub.Deliver | backend/websocket/handler.go:82-87 | one client's send keeps the invariant: its queue is offered the payload and the client is dropped exactly when its queue was full |
| Hub.BroadcastOver | backend/websocket/handler.go:81-88 | the loop keeps the invariant, keeps every queue and never registers a client |
| Hub.BroadcastOverEffect | backend/websocket/handler.go:81-88 | each visited client's queue is offered the payload and it stays registered iff it had room; every other client is untouched |
| Hub.BroadcastOverAt | backend/websocket/handler.go:81-88 | looping over all registered clients, a registered client's queue is offered the payload, an unregistered one is untouched, and a client stays registered iff it was registered with room |
| Hub.BroadcastOverOrderIndependent | backend/websocket/handler.go:81-88 | two loops over the registered clients in different orders end in the same hub state |
| Hub.Broadcast | backend/websocket/handler.go:73-90 | a failed serialization changes nothing; otherwise every registered client with room gets the payload last in its queue, every full one is closed and dropped, no client is added, unregistered queues are untouched and the invariant is kept |
| Hub.BroadcastOrderIndependent | backend/websocket/handler.go:81-88 | the result does not depend on the map's iteration order |
| Hub.PublishedEventArrivesIntact | backend/websocket/handler.go:74-83 | with a decoder inverse to the encoder, a client with room decodes the published event itself from the end of its queue |
| Hub.Take | backend/websocket/handler.go:120 | reading the queue yields its oldest message and keeps the invariant |
| Hub.Step | backend/websocket/handler.go:50-120 | every register, unregister or broadcast step and every receive by `writePump` keeps the invariant and never forgets a channel; nothing is ever sent on a closed channel, which stays closed and only loses messages from its front |
| Handlers.Add | frontend/src/services/websocket.js:43-44 | the handler is appended and the earlier ones stay in place |
| Handlers.Remove | frontend/src/services/websocket.js:45-47 | no copy of the handler survives, and every other handler keeps its multiplicity |
| Handlers.RemoveAbsent | frontend/src/services/websocket.js:46 | a list without the handler is left exactly as it is |
| Handlers.RemoveConcat | frontend/src/services/websocket.js:46 | removal distributes over concatenation, so survivors keep their order |
| Handlers.RemoveIdempotent | frontend/src/services/websocket.js:45-47 | calling the remover twice equals calling it once |
| Handlers.RemoveAfterAdd | frontend/src/services/websocket.js:43-47 | the remover removes the copy its own add appended |
| Handlers.LaterHandlersUnaffected | frontend/src/services/websocket.js:45-47 | other handlers added after the remover was created survive it, in order |
| Handlers.RemoveCommutes | frontend/src/services/websocket.js:46 | two removers give the same list in either order |
| Handlers.Notify | frontend/src/services/websocket.js:26 | no more calls are made than there are handlers |
| Handlers.NotifyCalls | frontend/src/services/websocket.js:26 | handlers are called in list order with the same data; a throwing handler ends the loop, the loop ends early only after a throw, and if none throws every handler is called once |
| Handlers.NotifyConcat | frontend/src/services/websocket.js:26 | notifying a concatenation reaches the second part exactly when nobody in the first part throws |
| Handlers.Dispatch | frontend/src/services/websocket.js:20-29 | a frame that fails to parse calls no handler; otherwise each handler is called with the parsed data in registration order |
| Handlers.RemovedHandlerNotCalled | frontend/src/services/websocket.js:20-47 | a handler whose remover ran is not called for later messages |

## Left out

- Goroutines, the `sync.WaitGroup`, channel blocking and the hub's mutex. The fan-in is a schedule-driven interleaving, and the hub processes one request at a time.
- The chain client, Keccak-256, `abi.JSON` and `UnpackIntoInterface` internals are not modelled. The chain is a deterministic snapshot (`Chain`). The unpack is "first 32-byte big-endian word, or failure when the data is shorter".
- `common.HexToAddress` on strings is a parameter. On a topic it is modelled as "the low 20 bytes of the word".
- Environment reads (`ETH_RPC_URL`, `CONTRACT_ADDRESS`, `FROM_BLOCK`, `TO_BLOCK`) are parameters.
- Events.ProcessTransferEvent: requires at least three topics, because the source indexes topics 1 and 2 without a check and a shorter log makes the process panic. The same holds for `ProcessApprovalEvent`, and through `WellFormed` for the scans.
- Batch.BuildConfigs: a non-empty block string that is not a decimal number is excluded, because `big.Int.SetString` leaves its value unspecified. The same applies to `ScanMultipleContracts`. For `ArgsConfig` and for `ScanTransferEvents` once it is connected, any block argument that is not a decimal number is excluded, including an empty one: a block argument that is present goes to `SetString` and is not defaulted. For `Cron.ServiceTick` the exclusion covers the first two windows. Their bounds come from the environment, because the second window's lower bound is the environment's upper bound.
- Batch.BatchScanEvents: logs with fewer than three topics are excluded only once the client is connected, since the error paths read no log. The same holds for `ScanMultipleContracts`, `ScanTransferEvents` and `Cron.ServiceTick`.
- Scanner.FilterQuery: the node's reading of the block range, including negative block numbers, is not modelled; the range is passed through unchanged.
- Batch.BufferSize: the capacity has no effect on the results, because the model has no blocking. The same holds for the fixed capacity of 100 in `ScanTransferEvents`.
- Go's nil slices are modelled as empty sequences. An error result carries no lists.
- JSON encoding and decoding are opaque partial functions.
- The RFC 3339 timestamp is an opaque string argument.
- The cron ticker and `stopChan` are not modelled.
- The cron test's expectation that the message is a bare timestamp (backend/cron/service_test.go:26) disagrees with backend/cron/service.go:59-76, which sends the JSON envelope; the model follows the service.
- Decimal.Atoi: Go's `int` is taken to be 64 bits wide.
- `ServeWs`'s connection upgrade and `writePump`'s socket writes are not modelled. A closed queue leads `writePump` to unregister its client, which `Hub.UnregisterIdempotent` covers.
- Hub.Register: requires a client id that never had a channel, because `ServeWs` always makes a new client.
- backend/main.go and frontend/src/App.js are not part of this model.
- The frontend's reconnect timer and logging are not modelled.
- Backend logging (`log.Printf` and `log.Println` in the scanner, the hub and the cron service) is not modelled; it has no effect on results.

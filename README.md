# swift-tds: the raw SQL batch request and the connection's close lifecycle

This project models two sequential parts of swift-tds, a client for the TDS (Tabular Data Stream) protocol, in Dafny:

- **`RawSqlBatchRequest`** consumes the tokens the token parser yields for each inbound packet of a SQL batch response.
  - A COLMETADATA token replaces the request's lookup table. The table is a field of the request, so it carries over from packet to packet.
  - A ROW token is paired with the current table into a `TDSRow`, and the row is handed to the caller's `onRow` callback.
  - Every other token is ignored.
  - There are three ways to fail: a token whose tag and object disagree (a protocol error), a row with no table yet, and an `onRow` that throws. Each one ends the batch.
  - `handle` then answers `.done` for a packet whose status is EOM and `.continue` for any other. The `rawSql`/`query` entry points build a request and send it. The collecting `rawSql(_:)` returns the rows its callback accumulated.
- **`TDSConnection`** closes its channel at most once, guarded by `didClose`. Its deinitialiser asserts that the connection was closed.

Files:

- `tds_types.dfy` (module `TDSTypes`): tokens, rows, packets, errors, and the outcome of a thrown error or of a future.
- `token_handling.dfy` (module `TokenHandling`): what the request does, written as functions:
  - `Step` handles one token.
  - `Process` implements `handleParsedTokens`.
  - `HandlePacket` implements `handle`.
  - `Drive` feeds a response to the request.
  - `LatestTable` and `RowsOf` are independent reference definitions, and the lemmas connect them to `Process`/`Drive`.
- `raw_sql_batch_request.dfy` (module `RawSqlBatch`): the class `RawSqlBatchRequest`, whose `while` loop is proved against `Process`, plus `Send`, `Query`, `RawSql` and `RawSqlRows`.
- `tds_connection.dfy` (module `Connection`): the class `TDSConnection`. It has `close()` as written (`CloseAsWritten`) and as evidently intended (`Close`), both specified by pure effect functions, and lemmas about both.

Modelling choices:

- **Tokens.** A token is its type byte plus the object the parser produced, so a failed `as?` cast can be represented.
  - The tag values are those of MS-TDS, section 2.2.7: ROW = 0xD1 and COLMETADATA = 0x81.
  - The EOM packet status is 0x01. It is compared for equality, as `packet.header.status == .eom` does.
- **Parser output and constructors.** A packet carries the tokens the token parser yields for its payload. `TDSRow(dataRow:lookupTable:)` and `LookupTable(colMetadata:)` are opaque constructors.
- **Callback.** `onRow` is a function of the rows it has accepted so far and the row it is given, answering `Returned` or `Threw(reason)`. Any deterministic closure can be written this way. The request keeps the rows `onRow` accepted as the trace of its side effects.
- **Missing table.** A row that arrives before any table makes the source call `fatalError()`. Here it gives the explicit error `MissingMetadata`.
- **`send`.** The connection's `send` is not part of this model. `Drive`/`Send` stand for it:
  - They feed the response packets in order, stopping at the first error (the future fails) or at the first `.done` (the future succeeds).
  - If the packets run out before either happens, the future stays `Pending`.
- **Channel.** `channel.isActive` is a boolean. `channel.close(mode: .all)` makes an active channel inactive and succeeds. On a channel that is not active (for a connected channel, one already closed) it fails with "already closed", as SwiftNIO channels do.
- **Event-loop hop.** `close()` hops onto the event loop through `submit`. Here that step is synchronous. `taskAccepted` says whether the event loop ran the task.
- **`isClosed`.** It is `IsClosed`, defined as the negation of the channel's active flag.

## Model

| member | source | states |
|---|---|---|
| `RawSqlBatch.RawSqlBatchRequest.constructor` | Sources/TDS/RawSqlBatchRequest.swift:54-62 | a new request keeps its message and callback, has no lookup table and has delivered no row |
| `RawSqlBatch.RawSqlBatchRequest.HandleParsedTokens` | Sources/TDS/RawSqlBatchRequest.swift:83-103 | the loop leaves the table and row trace that `Process` gives for the old state, and throws exactly when `Process` stops, with its error |
| `RawSqlBatch.RawSqlBatchRequest.Handle` | Sources/TDS/RawSqlBatchRequest.swift:64-73 | the new state and the response or thrown error are those of `HandlePacket` on the old state |
| `TokenHandling.Step` | Sources/TDS/RawSqlBatchRequest.swift:86-101 | one token: a throwing token leaves the state as it was and throws only for a reason `ThrowCause` lists; only a well-formed COLMETADATA token changes the table, to its own lookup table, and it never throws; a well-formed ROW token with no table stops with MissingMetadata; with a table, the callback's answer on the row built from it decides: Returned adds that row, Threw(reason) stops with CallbackError(reason); ignored tokens change nothing; mistyped ones raise a protocol error |
| `TokenHandling.Process` | Sources/TDS/RawSqlBatchRequest.swift:83-103 | the loop over a batch: the row trace only grows at its end, by at most one row per token |
| `TokenHandling.Drive` | Sources/TDS/RawSqlBatchRequest.swift:16 | the connection feeding response packets to the request: the row trace only grows at its end, and the future succeeds only if some packet is an EOM packet |
| `TokenHandling.HandlePacket` | Sources/TDS/RawSqlBatchRequest.swift:64-73 | handle succeeds exactly when token handling does; on success it answers Done exactly when the status is EOM, otherwise Continue; on failure it passes the same error on |
| `TokenHandling.ProcessAppend` | Sources/TDS/RawSqlBatchRequest.swift:85-102 | processing a + b is processing b from the state a left, unless a threw, in which case it is a's outcome |
| `TokenHandling.FailureIgnoresRest` | Sources/TDS/RawSqlBatchRequest.swift:67 | once a token throws, no later token is processed: what follows cannot change the outcome |
| `TokenHandling.ProcessMatchesReference` | Sources/TDS/RawSqlBatchRequest.swift:85-100 | a successful run appends to the trace exactly the rows of the row tokens in token order, each read against the latest column metadata before it, and leaves the table of the last COLMETADATA token |
| `TokenHandling.StopIndex` | Sources/TDS/RawSqlBatchRequest.swift:85-102 | a batch that threw did so at some token j that processing reached, and the outcome is that token's throw |
| `TokenHandling.StoppedRunMatchesReference` | Sources/TDS/RawSqlBatchRequest.swift:85-93 | a batch that threw did so at a token j processing reached, and the outcome is that token's throw; it has delivered exactly the rows of the tokens before j, in token order, each against the latest metadata, and stopped in the state before j |
| `TokenHandling.RowsInTokenOrder` | Sources/TDS/RawSqlBatchRequest.swift:85-93 | a fresh request that handles a batch successfully has delivered exactly its rows in token order |
| `TokenHandling.StopReason` | Sources/TDS/RawSqlBatchRequest.swift:85-101 | a batch stops only at a reached token that is mistyped (its protocol error), a row with no table (MissingMetadata) or a row onRow throws on (CallbackError with its reason), in the state before that token |
| `TokenHandling.StopsAt` | Sources/TDS/RawSqlBatchRequest.swift:85-102 | if processing reaches token j and that token throws, the batch ends with that throw |
| `TokenHandling.MistypedTokenFails` | Sources/TDS/RawSqlBatchRequest.swift:88-90 | a ROW- or COLMETADATA-tagged token of the wrong kind fails with the matching protocol error, with no row and no table change for it |
| `TokenHandling.MissingTableFails` | Sources/TDS/RawSqlBatchRequest.swift:91 | a row token reached while no table is set fails with MissingMetadata and produces no row |
| `TokenHandling.IgnoredPrefixRuns` | Sources/TDS/RawSqlBatchRequest.swift:99-100 | tokens that are neither ROW nor COLMETADATA leave the table and the trace unchanged |
| `TokenHandling.RowBeforeMetadataFails` | Sources/TDS/RawSqlBatchRequest.swift:87-91 | in a request with no table, the first row token that no COLMETADATA precedes fails: with MissingMetadata if well formed, with the protocol error otherwise; no row is delivered |
| `TokenHandling.CallbackErrorAborts` | Sources/TDS/RawSqlBatchRequest.swift:64-93 | a throwing onRow ends the batch with its error in the state before that row, and handle returns neither Continue nor Done |
| `TokenHandling.IgnoredTokensIrrelevant` | Sources/TDS/RawSqlBatchRequest.swift:99-100 | removing every ignored token from a batch does not change its outcome |
| `TokenHandling.RowRun` | Sources/TDS/RawSqlBatchRequest.swift:87-93 | a run of rows under one table, with a callback that never throws, delivers those rows paired with that table, in order |
| `TokenHandling.TwoResultSets` | Sources/TDS/RawSqlBatchRequest.swift:94-98 | metadata A, rows, metadata B, rows: the first rows are read against A and the second against B only; B is the table left behind |
| `TokenHandling.DriveIsProcessOfResponse` | Sources/TDS/RawSqlBatchRequest.swift:49-73 | handling a response packet by packet is processing all its tokens as one stream, because the table persists across packets: a succeeded or still-pending future goes with a stream that ran through, a failed one with a stream that stopped with the same error and state; a pending future has seen no EOM packet |
| `TokenHandling.StoppedStreamFailsRequest` | Sources/TDS/RawSqlBatchRequest.swift:64-93 | when the response's token stream stops, for instance on a row before any metadata in a later packet or a throwing callback, the request's future fails with exactly that error |
| `TokenHandling.DriveDeliversResponseRows` | Sources/TDS/RawSqlBatchRequest.swift:49-98 | a successful request has delivered exactly the rows of its response, each against the latest metadata, even metadata from an earlier packet |
| `TokenHandling.ProcessNeverThrowsCallbackError` | Sources/TDS/RawSqlBatchRequest.swift:93 | a callback that never throws is never the error a batch stops with |
| `TokenHandling.NoCallbackErrorWhenAccepting` | Sources/TDS/RawSqlBatchRequest.swift:93 | the same for a whole response |
| `RawSqlBatch.Send` | Sources/TDS/RawSqlBatchRequest.swift:16 | sending leaves the request in the state `Drive` gives and completes the future as `Drive` does |
| `RawSqlBatch.Query` | Sources/TDS/RawSqlBatchRequest.swift:19-24 | the query's future and the callback's trace are those of `Drive` on a fresh request; on success the trace is the response's rows in token order |
| `RawSqlBatch.RawSql` | Sources/TDS/RawSqlBatchRequest.swift:11-17 | the same for a query text |
| `RawSqlBatch.RawSqlRows` | Sources/TDS/RawSqlBatchRequest.swift:6-9 | the collecting overload's future succeeds exactly when the request does, holding the rows delivered to the callback in delivery order, which are the response's rows; it never fails with a callback error |
| `Connection.ChannelClose` | Sources/TDS/Connection/TDSConnection.swift:42 | closing the channel leaves it inactive, and succeeds exactly when it was active |
| `Connection.IsClosed` | Sources/TDS/Connection/TDSConnection.swift:20-22 | definition: isClosed is true exactly when the channel is not active, whatever didClose says; what close does to it is stated by the close lemmas |
| `Connection.MayRelease` | Sources/TDS/Connection/TDSConnection.swift:48-50 | definition: the deinit assertion holds exactly when didClose is set; where it holds is stated by the constructor and both close methods |
| `Connection.TDSConnection.constructor` | Sources/TDS/Connection/TDSConnection.swift:24-28 | a new connection has didClose false, may not be released yet and has done nothing |
| `Connection.TDSConnection.CloseAsWritten` | Sources/TDS/Connection/TDSConnection.swift:30-46 | close() as written: the new state, the future and the events appended are those of `CloseAsWrittenEffect`; afterwards the connection may be released |
| `Connection.TDSConnection.Close` | Sources/TDS/Connection/TDSConnection.swift:30-46 | corrected close(): the same, against `CloseEffectOf` |
| `Connection.CloseIsIdempotent` | Sources/TDS/Connection/TDSConnection.swift:31-33 | every close after the first returns an already-succeeded future, changes nothing and performs no channel action, in both versions |
| `Connection.FirstCloseSetsDidClose` | Sources/TDS/Connection/TDSConnection.swift:30-50 | the first close sets didClose in both versions, which is what the deinit assertion needs |
| `Connection.TaskFailureIsCascaded` | Sources/TDS/Connection/TDSConnection.swift:36-45 | when the event loop rejects the task, the first close fails with that error and the channel is untouched |
| `Connection.CloseClosesChannel` | Sources/TDS/Connection/TDSConnection.swift:38-43 | corrected close: once its task runs the channel is closed and the caller sees success; the channel is asked to close exactly when it was active |
| `Connection.AsWrittenLeavesOpenChannelOpen` | Sources/TDS/Connection/TDSConnection.swift:38-40 | as written, closing a connection whose channel is active reports success while the channel stays active |
| `Connection.AsWrittenFailsOnInactiveChannel` | Sources/TDS/Connection/TDSConnection.swift:41-42 | as written, closing a connection whose channel is inactive fails with "already closed" |
| `Connection.AsWrittenDiffersFromCorrected` | Sources/TDS/Connection/TDSConnection.swift:38-43 | the two versions disagree, in result or in channel state, on every first close whose task runs |
| `Connection.CloseTwice` | Sources/TDS/Connection/TDSConnection.swift:30-46 | a client that closes a fresh connection twice with the corrected close sees success both times and the channel closed after the first call; the first call's events are a channel close if the channel was active and a plain success otherwise; the second call's events are only the guard's already-succeeded future |

## Findings

| source | as written | input that shows it | evidently intended | confidence | as-written member | corrected member |
|---|---|---|---|---|---|---|
| Sources/TDS/Connection/TDSConnection.swift:38-43 | the task succeeds the promise when `channel.isActive` is true and calls `channel.close(mode: .all)` when it is false | first `close()` on a connection whose channel is active: the future succeeds and `isClosed` stays false; on an inactive channel the future fails with the channel's "already closed" error | close the channel when it is active, and succeed directly when it is already inactive | high; not executed | `Connection.AsWrittenLeavesOpenChannelOpen` | `Connection.CloseClosesChannel` |

## Left out

- `start(allocator:)` (Sources/TDS/RawSqlBatchRequest.swift:75-77): it only delegates to `TDSMessage(payload:allocator:).packets`. Packet splitting is not part of this model, so the message text is carried but never serialised.
- The token parser (`TDSTokenParser.writeAndParseTokens`): a packet carries its parsed tokens instead. Byte-level parsing of its payload and buffering across packets are not modelled.
- `TDSRow(dataRow:lookupTable:)` and `TDSRow.LookupTable(colMetadata:)`: opaque constructors. No column value is decoded.
- The connection's `send`: its implementation is not part of this model. `Drive` assumes it feeds packets in order until handle throws or returns `.done`.
- Futures and promises, `eventLoop.submit` and the async/await overloads (`#if compiler(>=5.5)` blocks): the hop onto the event loop is taken synchronously. A future's completion is a value `Succeeded`/`Failed`/`Pending`.
- The channel beyond its `isActive` flag and its close: it never changes state except through `close()`. The channel's own close semantics are an assumption about SwiftNIO.
- The deinit assertion: it is the predicate `MayRelease`. The constructor is shown to produce a connection that may not be released yet, and both versions of close produce one that may.
- `log(to:)`, `logger`, `eventLoop` and `closeFuture`: logging and accessors with no logic.
- `onRow` on a thrown row: the row passed to a callback that throws is not added to the trace. The trace holds only rows the callback accepted.
- The generic row callback is a pure function of the rows accepted so far and the current row. A closure whose behaviour depends on outside state is not covered.

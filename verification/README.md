# Ethereum JSON-RPC façade of smartBCH, modelled in Dafny

This project models the `eth_*` JSON-RPC façade of smartBCH (`rpc/api/eth_api.go`).
The façade turns loosely typed RPC arguments into requests to a chain backend.
It turns the backend's answers into Ethereum-shaped replies.
Most of its logic is about which failures become `null`, which become `0` and which pass through as errors.

How it is modelled:

- The backend is an immutable record (`Backends.Backend`).
  Its lookup tables are maps from key to outcome (`Result`).
  A missing key answers with the backend's not-found error (`BlockNotFound`, `TxNotFound`, `AccNotFound`).
  A present key may map to any error; that is how other backend failures enter the model.
  Execution (`call`, `estimateGas`) and submission (`sendRawTx`) are arbitrary total functions.
- Every RPC method is a pure function returning `Reply(value, calls)`.
  `calls` lists the backend requests the method issued, in order.
  This makes "consults nothing", "never submits" and "fetches the transaction list only for full blocks" statable.
- Code the façade calls but that is defined outside this file is uninterpreted.
  It lives elsewhere in package `api`, in smartBCH's `internal/ethutils`, in moeingevm's `ebp` package, or in go-ethereum.
  This covers transaction decoding and encoding, signing, hashing, key parsing, `StatusIsFailure` and `createGethTxFromSendTxArgs`.
  These are function-typed fields of `Primitives.Primitives`, so every property holds for any implementation of them.
- The response encoders (`blockToRpcResp`, `txToRpcResp`, `txToReceiptRpcResp`) are plain constructors (`RpcBlock`, `RpcTx`, `RpcReceipt`).
  `toCallErr` is the error constructor `CallError(status, data)`.
- Go integers are modelled explicitly.
  Block numbers are `int64` (`I64`); gas, nonces and indices are `uint64` (`U64`); `big.Int` values are `nat`.
  `uint32(block.Number)`, the height used for the transaction-list query, is `TxListHeight` (the low 32 bits).

Behaviours of the code worth noting:

- `GetTransactionByHash` and `GetTransactionReceipt` answer `null` on **any** backend error, not only on "transaction not found".
- `createGethTxFromCallArgs` never fails.
  An absent `to` becomes the zero address, so `eth_call`/`eth_estimateGas` without a recipient call address zero.
  They do not simulate a contract creation (`CallBuilder.AbsentRecipientIsZeroAddress`).
- `GetTransactionCount` passes the backend's error on.
  Of the count methods, only the block transaction-count methods answer `null` on error.
- Block number 0 ("earliest") resolves to the head block, like every non-positive number.

## Model

| member | source | states |
|---|---|---|
| AddressOrder.AddressLess | rpc/api/eth_api.go:97-106 | The comparison closure of `Accounts` (a loop over the 20 byte positions) decides exactly the byte-wise, most-significant-first order `LexLess` |
| AddressOrder.LexLessIrreflexive | rpc/api/eth_api.go:97-106 | No address precedes itself in the listing order |
| AddressOrder.LexLessAsymmetric | rpc/api/eth_api.go:97-106 | If `a` precedes `b`, then `b` does not precede `a` |
| AddressOrder.LexLessTransitive | rpc/api/eth_api.go:97-106 | The listing order is transitive |
| AddressOrder.LexLessTotal | rpc/api/eth_api.go:97-106 | Any two distinct addresses are ordered one way or the other, so the sort's comparator is a strict total order |
| AddressOrder.SortAddresses | rpc/api/eth_api.go:97-107 | Sorting a duplicate-free address list gives a strictly ascending list with the same addresses and the same length |
| AddressOrder.SortedListingUnique | rpc/api/eth_api.go:91-107 | Two strictly ascending listings of the same addresses are equal, so `eth_accounts` does not depend on map iteration order |
| EthApi.Accounts | rpc/api/eth_api.go:91-108 | `eth_accounts` lists exactly the registry's addresses, without duplicates, strictly ascending byte-wise |
| Signer.LoadTestAccounts | rpc/api/eth_api.go:78-89 | The registry holds an address iff some configured key parses to a key of that address; every entry's key belongs to its address; unparsable keys are skipped; the last key loading as an address wins |
| EthApi.GetBalance | rpc/api/eth_api.go:133-143 | Asks only for the latest balance, whatever height was requested; an unknown account gives 0 with no error, any other error passes through, a found balance is returned |
| EthApi.TxListHeight | rpc/api/eth_api.go:172 | The transaction-list height is the block number reduced modulo 2^32; it equals the block number for numbers in [0, 2^32) |
| EthApi.GetBlockByNum | rpc/api/eth_api.go:259-266 | A non-positive block number asks the backend for its current block; a positive one asks for exactly that number; one request either way |
| EthApi.BlockResponse | rpc/api/eth_api.go:163-178 | Shaping a block lookup follows the block policy `BlockPolicy`: null iff not found, other errors pass through, the transaction list is fetched only for full blocks, and its failure fails the request |
| EthApi.GetBlockByHash | rpc/api/eth_api.go:161-179 | `eth_getBlockByHash` follows the block policy for the lookup by hash |
| EthApi.GetBlockByNumber | rpc/api/eth_api.go:182-199 | `eth_getBlockByNumber` follows the block policy for the resolved block number |
| EthApi.GetBlockTransactionCountByHash | rpc/api/eth_api.go:202-209 | The count is present iff the block lookup succeeds, and is then the block's number of transactions; any error gives null |
| EthApi.GetBlockTransactionCountByNumber | rpc/api/eth_api.go:212-219 | Same as by hash, for the resolved block number |
| EthApi.GetTxByIdx | rpc/api/eth_api.go:268-281 | An index at or past the end gives null without any backend request; otherwise exactly the hash at that position is looked up, a lookup error is returned and never null |
| EthApi.GetTransactionByBlockHashAndIndex | rpc/api/eth_api.go:222-228 | Any block-lookup error, not-found included, is returned as an error; a found block is indexed as `GetTxByIdx` does |
| EthApi.GetTransactionByBlockNumberAndIndex | rpc/api/eth_api.go:231-237 | Any error resolving the block number is returned; a found block is indexed as `GetTxByIdx` does |
| EthApi.GetTransactionByHash | rpc/api/eth_api.go:240-246 | Never an error: the transaction is present iff the backend finds it, null on any error |
| EthApi.GetTransactionReceipt | rpc/api/eth_api.go:284-291 | Never an error: the receipt is present iff the backend finds the transaction, null on any error |
| EthApi.GetTransactionCount | rpc/api/eth_api.go:249-257 | Answers the backend's nonce of the address, or its error, whatever height was requested |
| EthApi.GetUncleByBlockHashAndIndex | rpc/api/eth_api.go:294-297 | Always null, never an error, no backend request |
| EthApi.GetUncleByBlockNumberAndIndex | rpc/api/eth_api.go:300-303 | Always null, never an error, no backend request |
| EthApi.GetUncleCountByBlockHash | rpc/api/eth_api.go:306-309 | Always 0, no backend request |
| EthApi.GetUncleCountByBlockNumber | rpc/api/eth_api.go:312-315 | Always 0, no backend request |
| EthApi.Submit | rpc/api/eth_api.go:366-372 | Submits exactly the given bytes; on rejection answers the backend's hash and error; on acceptance answers the locally computed hash, not the backend's acknowledgement |
| EthApi.SendRawTransaction | rpc/api/eth_api.go:323-335 | A decode failure answers the zero hash and the error and submits nothing; otherwise the bytes are submitted verbatim; success iff decoding and submission succeed, and then the hash is the decoded transaction's hash; a rejected submission answers the backend's hash and error |
| EthApi.FillNonce | rpc/api/eth_api.go:344-348 | Only the nonce may change; a supplied nonce is kept without asking the backend; an absent one is asked for once and set iff the backend knows it |
| EthApi.SendTransaction | rpc/api/eth_api.go:338-373 | An unknown sender is refused with "unknown account" before any backend request; for a known sender the nonce is filled first; a failure to build the transaction answers the zero hash and the error without reading the chain id or submitting; a signing or encoding failure answers the zero hash and the error without submitting; otherwise the signed bytes are submitted, an acceptance answers the locally computed hash of the signed transaction and a rejection answers the backend's hash and error |
| EthApi.ClassifyExecution | rpc/api/eth_api.go:403-407 | Success iff the status is not a failure, carrying the payload; a failure carries the error built from status and return data |
| EthApi.Call | rpc/api/eth_api.go:395-408 | Executes exactly the defaulted call once; success iff the status is not a failure, returning the return data; otherwise the call error |
| EthApi.EstimateGas | rpc/api/eth_api.go:411-423 | Estimates exactly the defaulted call once; success iff the status is not a failure, returning the gas; otherwise the call error |
| CallBuilder.BuildCallTx | rpc/api/eth_api.go:425-468 | Never fails; every supplied field passes through unchanged; absent from/to become the zero address, value 0, gas 10000000, gas price 20000000000, data empty; nonce always 0; a recipient is always present |
| CallBuilder.BuildCallTxRoundTrip | rpc/api/eth_api.go:425-468 | Every transaction the builder can produce is rebuilt exactly from its explicitly spelled-out arguments |
| CallBuilder.AbsentMeansDefault | rpc/api/eth_api.go:428-458 | Leaving any field out is the same as supplying its default |
| CallBuilder.AbsentRecipientIsZeroAddress | rpc/api/eth_api.go:432-434 | A call without a recipient is the same as a call to the zero address (not a contract creation) |
| EthApiProps.NonPositiveHeightsAgree | rpc/api/eth_api.go:259-263 | All non-positive block numbers get the same `eth_getBlockByNumber` answer, the head block's |
| EthApiProps.UnknownBlockHashIsNull | rpc/api/eth_api.go:161-168 | A hash the backend does not know gives null, not an error, after one request |
| EthApiProps.BlockPolicyDeterminesReply | rpc/api/eth_api.go:161-199 | The block policy fixes the reply completely: two replies that follow it for the same lookup are equal |
| EthApiProps.ByNumberAgreesWithByHash | rpc/api/eth_api.go:161-199 | On a backend whose tables agree, a block found by number is answered identically when asked for by its hash |
| EthApiProps.IndexBeyondCountIsNull | rpc/api/eth_api.go:212-237 | An index at or beyond the reported transaction count gives null, with no transaction lookup |
| EthApiProps.IndexLookupVersusHashLookup | rpc/api/eth_api.go:240-281 | By-position and by-hash transaction lookups agree when the backend has the transaction; on a backend error the positional one errors while the by-hash one answers null |
| EthApiProps.ReceiptIffTransaction | rpc/api/eth_api.go:240-291 | A receipt is available exactly when the transaction is, and for the same transaction |
| EthApiProps.ZeroBalanceCases | rpc/api/eth_api.go:133-143 | The balance is 0 iff the backend reports 0 or does not know the account; the requested height never changes the answer |
| EthApiProps.FillNonceIdempotent | rpc/api/eth_api.go:344-348 | A request whose nonce got filled is left alone by a second filling, which asks nothing |
| EthApiProps.FillNonceAgreesWithTransactionCount | rpc/api/eth_api.go:249-257 | For an absent nonce, `eth_sendTransaction` fills in `n` iff `eth_getTransactionCount` of the sender answers `n`, leaves it absent iff that method answers an error, and issues the same single nonce request |
| EthApiProps.EstimateGasUsesDefaults | rpc/api/eth_api.go:411-453 | Estimation without gas, gas price or value runs with gas 10000000, gas price 20000000000 and value 0 |
| EthApiProps.CallAndEstimateAgree | rpc/api/eth_api.go:395-423 | `eth_call` and `eth_estimateGas` run the same transaction and fail alike when the backend reports the same status |
| EthApiProps.SendMatchesRawSubmission | rpc/api/eth_api.go:323-373 | If decoding inverts encoding, `eth_sendRawTransaction` on the bytes `eth_sendTransaction` submitted answers the same hash |

## Left out

- `Syncing` (rpc/api/eth_api.go:376-392): it reads the node's global sync status from the consensus engine, a foreign service.
- rpc/api/debug_api.go: wall-clock time, atomic compare-and-swap and runtime memory statistics; no domain logic.
- `BlockNumber`, `ChainId`, `ProtocolVersion`, `GetCode`, `GetStorageAt`, `Coinbase` (zero address) and `GasPrice` (0) are not modelled. They are constants or direct pass-throughs of a single backend value.
- `newEthAPI` and logging: construction is the `Api` record; the error logged for an unparsable key is not modelled.
- Key parsing, address derivation, signing, RLP encoding and decoding, Keccak hashing, `StatusIsFailure` and `createGethTxFromSendTxArgs` are uninterpreted functions. Their internals are defined outside this file (elsewhere in package `api`, in smartBCH's `internal/ethutils`, in moeingevm's `ebp` package, or in go-ethereum). Decoding a revert reason happens inside `toCallErr`, which is not part of this model.
- Hex and JSON wire encoding of arguments and results, and `big.Int` arithmetic (modelled as `nat`).
- The error branches of `Call` and `EstimateGas` after `createGethTxFromCallArgs` (rpc/api/eth_api.go:398-400, 413-415) are unreachable because that function never returns an error, so they have no counterpart.
- The backend's answer for a transaction-list height it has no entry for is not visible in this file. The model answers `BlockNotFound`; the façade treats every list error alike.
- Concurrency: the façade is stateless per request and its registry is read-only, so the pure-function model covers it.

/** The values that cross the façade: byte strings, addresses, hashes,
    blocks, transactions, the loosely typed RPC argument records and the
    errors the façade can report. */
module EthTypes {
  import opened Wrappers

  /** One octet. */
  type Byte = b: int | 0 <= b < 0x100

  type Bytes = seq<Byte>

  const AddressLength: nat := 20
  const HashLength: nat := 32

  /** A 20-byte account identifier. */
  type Address = s: Bytes | |s| == AddressLength witness Zeros(AddressLength)

  /** A 32-byte block or transaction identifier. */
  type Hash = s: Bytes | |s| == HashLength witness Zeros(HashLength)

  /** Go's `int64` (block numbers). */
  type I64 = x: int | -0x8000_0000_0000_0000 <= x < 0x8000_0000_0000_0000

  /** Go's `uint64` (gas, nonces, indices). */
  type U64 = x: nat | x < 0x1_0000_0000_0000_0000

  /** `n` zero bytes. */
  function Zeros(n: nat): (r: Bytes)
    ensures |r| == n
    ensures forall i | 0 <= i < n :: r[i] == 0
  {
    if n == 0 then [] else [0] + Zeros(n - 1)
  }

  const ZeroAddress: Address := Zeros(AddressLength)
  const ZeroHash: Hash := Zeros(HashLength)

  /** Gas price used by `eth_call`/`eth_estimateGas` when none is given. */
  const DefaultGasPrice: nat := 20000000000

  /** Gas ceiling used by `eth_call`/`eth_estimateGas` when none is given. */
  const DefaultRPCGasLimit: U64 := 10000000

  /** The symbolic "latest" block number of the RPC layer. */
  const LatestBlockNumber: I64 := -1

  /** A block as the backend stores it: its height, its hash and the hashes
      of its transactions in order. */
  datatype Block = Block(number: I64, hash: Hash, transactions: seq<Hash>)

  /** A transaction as the backend stores it. Only its identity matters to
      the façade; the rest of its content is passed to the response shapers
      untouched. */
  datatype StoredTx = StoredTx(hash: Hash, blockNumber: I64, index: nat, payload: Bytes)

  /** An Ethereum transaction as built for execution or signing:
      the arguments of go-ethereum's `NewTransaction`. `to` is absent only
      for contract creation. */
  datatype GethTx = GethTx(nonce: U64, to: Option<Address>, value: nat,
                           gas: U64, gasPrice: nat, data: Bytes)

  /** A private key of the local signer registry (its content is opaque). */
  datatype PrivKey = PrivKey(secret: nat)

  /** Arguments of `eth_call` and `eth_estimateGas`: every field optional. */
  datatype CallArgs = CallArgs(from: Option<Address>, to: Option<Address>,
                               gas: Option<U64>, gasPrice: Option<nat>,
                               value: Option<nat>, data: Option<Bytes>)

  /** Arguments of `eth_sendTransaction`: the sender is mandatory. */
  datatype SendTxArgs = SendTxArgs(from: Address, to: Option<Address>,
                                   gas: Option<U64>, gasPrice: Option<nat>,
                                   value: Option<nat>, nonce: Option<U64>,
                                   data: Option<Bytes>)

  /** The errors the façade can see or report. `BlockNotFound` and
      `AccNotFound` are the backend's sentinel errors the façade compares
      against; `TxNotFound` is the backend's answer for an unknown
      transaction hash; `UnknownAccount` is the "unknown account: 0x…"
      error of `eth_sendTransaction`; `CallError` is the error built from a
      failed execution's status code and return data; `Fault` stands for
      every other error a collaborator may return. */
  datatype Error =
    | BlockNotFound
    | AccNotFound
    | TxNotFound
    | UnknownAccount(addr: Address)
    | CallError(status: int, data: Bytes)
    | Fault(code: nat)
}

/** The chain backend the façade delegates to, as an immutable record of
    lookup tables and execution functions, and the requests the façade can
    issue to it. */
module Backends {
  import opened Wrappers
  import opened EthTypes

  /** Outcome of executing a call: status code and return data. */
  datatype CallOutcome = CallOutcome(status: int, data: Bytes)

  /** Outcome of estimating gas: status code, return data and gas used. */
  datatype EstimateOutcome = EstimateOutcome(status: int, data: Bytes, gas: U64)

  /** The backend's answer to a raw-transaction submission: it always
      carries a hash and may carry an error. */
  datatype Ack = Ack(hash: Hash, err: Option<Error>)

  /** One request issued by the façade to the backend. */
  datatype Request =
    | CurrentBlockReq
    | BlockByHashReq(hash: Hash)
    | BlockByNumberReq(height: I64)
    | TxListByHeightReq(listHeight: nat)
    | GetTransactionReq(txHash: Hash)
    | GetNonceReq(addr: Address)
    | GetBalanceReq(addr: Address, atHeight: I64)
    | CallReq(tx: GethTx, from: Address)
    | EstimateGasReq(tx: GethTx, from: Address)
    | ChainIdReq
    | SendRawTxReq(data: Bytes)

  /** A snapshot of the backend. A key missing from a table answers with the
      backend's not-found error; a key present may map to any error, which is
      how other backend failures are modelled. */
  datatype Backend = Backend(
    current: Result<Block, Error>,
    byHash: map<Hash, Result<Block, Error>>,
    byNumber: map<I64, Result<Block, Error>>,
    txLists: map<nat, Result<seq<StoredTx>, Error>>,
    txs: map<Hash, Result<StoredTx, Error>>,
    nonces: map<Address, Result<U64, Error>>,
    balances: map<Address, Result<nat, Error>>,
    chainId: nat,
    call: (GethTx, Address) -> CallOutcome,
    estimateGas: (GethTx, Address) -> EstimateOutcome,
    sendRawTx: Bytes -> Ack)
  {
    function BlockByHash(h: Hash): Result<Block, Error> {
      if h in byHash then byHash[h] else Failure(BlockNotFound)
    }

    function BlockByNumber(n: I64): Result<Block, Error> {
      if n in byNumber then byNumber[n] else Failure(BlockNotFound)
    }

    function TxListByHeight(h: nat): Result<seq<StoredTx>, Error> {
      if h in txLists then txLists[h] else Failure(BlockNotFound)
    }

    function GetTransaction(h: Hash): Result<StoredTx, Error> {
      if h in txs then txs[h] else Failure(TxNotFound)
    }

    function GetNonce(a: Address): Result<U64, Error> {
      if a in nonces then nonces[a] else Failure(AccNotFound)
    }

    function GetBalance(a: Address): Result<nat, Error> {
      if a in balances then balances[a] else Failure(AccNotFound)
    }
  }

  /** The tables agree with each other: the head block and every block found
      by number are also found by their own hash. */
  ghost predicate Consistent(b: Backend) {
    && (b.current.Success? ==> b.BlockByHash(b.current.value.hash) == b.current)
    && (forall n | n in b.byNumber && b.byNumber[n].Success? ::
          b.BlockByHash(b.byNumber[n].value.hash) == b.byNumber[n])
  }
}

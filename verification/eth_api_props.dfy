/** Properties that relate several RPC methods of the façade to each other. */
module EthApiProps {
  import opened Wrappers
  import opened EthTypes
  import opened Backends
  import opened Primitives
  import opened CallBuilder
  import opened EthApi

  /** Every non-positive block number names the head block: all of them get
      the same answer, the one built from the backend's current block. */
  lemma NonPositiveHeightsAgree(api: Api, n: I64, m: I64, fullTx: bool)
    requires n <= 0 && m <= 0
    ensures GetBlockByNumber(api, n, fullTx) == GetBlockByNumber(api, m, fullTx)
    ensures GetBlockByNumber(api, n, fullTx) == BlockResponse(api, api.backend.current, fullTx, [CurrentBlockReq])
  {
  }

  /** A hash the backend does not know gives null, not an error. */
  lemma UnknownBlockHashIsNull(api: Api, hash: Hash, fullTx: bool)
    requires hash !in api.backend.byHash
    ensures GetBlockByHash(api, hash, fullTx) == Reply(Success(None), [BlockByHashReq(hash)])
  {
  }

  /** The block policy leaves no freedom: any two replies that follow it for
      the same lookup are the same reply. */
  lemma BlockPolicyDeterminesReply(b: Backend, lookup: Result<Block, Error>, fullTx: bool, prefix: seq<Request>,
                                   r1: Reply<Result<Option<RpcBlock>, Error>>,
                                   r2: Reply<Result<Option<RpcBlock>, Error>>)
    requires BlockPolicy(b, lookup, fullTx, prefix, r1)
    requires BlockPolicy(b, lookup, fullTx, prefix, r2)
    ensures r1 == r2
  {
  }

  /** On a consistent backend a block found by number is answered the same
      way when it is asked for by its hash. */
  lemma ByNumberAgreesWithByHash(api: Api, n: I64, fullTx: bool)
    requires Consistent(api.backend)
    requires GetBlockByNumber(api, n, fullTx).value.Success?
    requires GetBlockByNumber(api, n, fullTx).value.value.Some?
    ensures var rb := GetBlockByNumber(api, n, fullTx).value.value.value;
            GetBlockByHash(api, rb.block.hash, fullTx).value == Success(Some(rb))
  {
  }

  /** An index at or beyond the block's transaction count gives null. */
  lemma IndexBeyondCountIsNull(api: Api, blockNum: I64, idx: U64)
    requires GetBlockTransactionCountByNumber(api, blockNum).value.Some?
    requires idx >= GetBlockTransactionCountByNumber(api, blockNum).value.value
    ensures GetTransactionByBlockNumberAndIndex(api, blockNum, idx).value == Success(None)
    ensures GetTransactionByBlockNumberAndIndex(api, blockNum, idx).calls == GetBlockByNum(api, blockNum).calls
  {
  }

  /** Looking a transaction up by position and by its hash agree when the
      backend has it; when the backend fails, the positional lookup reports
      the error while the lookup by hash answers null. */
  lemma IndexLookupVersusHashLookup(api: Api, block: Block, idx: U64)
    requires idx < |block.transactions|
    ensures var byIdx := GetTxByIdx(api, block, idx);
            var byHash := GetTransactionByHash(api, block.transactions[idx]);
            && byIdx.calls == byHash.calls
            && (byIdx.value.Success? ==> byIdx.value == byHash.value)
            && (byIdx.value.Failure? ==> byHash.value == Success(None))
  {
  }

  /** A receipt is available exactly when the transaction is, and describes
      the same transaction. */
  lemma ReceiptIffTransaction(api: Api, hash: Hash)
    ensures var rc := GetTransactionReceipt(api, hash).value.value;
            var tx := GetTransactionByHash(api, hash).value.value;
            && (rc.Some? <==> tx.Some?)
            && (rc.Some? ==> rc.value.tx == tx.value.tx)
  {
  }

  /** A zero balance answers exactly the accounts whose balance is zero and
      the accounts the backend does not know; the requested height never
      matters. */
  lemma ZeroBalanceCases(api: Api, addr: Address, n: I64, m: I64)
    ensures GetBalance(api, addr, n).value == Success(0) <==>
              api.backend.GetBalance(addr) in {Success(0), Failure(AccNotFound)}
    ensures GetBalance(api, addr, n) == GetBalance(api, addr, m)
  {
  }

  /** Filling the nonce once is enough: a filled request is left alone. */
  lemma FillNonceIdempotent(b: Backend, args: SendTxArgs)
    requires FillNonce(b, args).value.nonce.Some?
    ensures FillNonce(b, FillNonce(b, args).value) == Reply(FillNonce(b, args).value, [])
  {
  }

  /** The nonce `eth_sendTransaction` fills in is the one
      `eth_getTransactionCount` reports for the sender: an absent nonce
      becomes `n` exactly when the transaction count answers `n`, and stays
      absent exactly when the transaction count answers an error. */
  lemma FillNonceAgreesWithTransactionCount(api: Api, args: SendTxArgs, blockNum: I64, n: U64)
    requires args.nonce.None?
    ensures FillNonce(api.backend, args).value.nonce == Some(n) <==>
              GetTransactionCount(api, args.from, blockNum).value == Success(n)
    ensures FillNonce(api.backend, args).value.nonce.None? <==>
              GetTransactionCount(api, args.from, blockNum).value.Failure?
    ensures FillNonce(api.backend, args).calls == GetTransactionCount(api, args.from, blockNum).calls
  {
  }

  /** Gas estimation with no gas, gas price or value runs the transaction
      with the default gas ceiling, the default flat price and value 0. */
  lemma EstimateGasUsesDefaults(api: Api, args: CallArgs)
    requires args.gas.None? && args.gasPrice.None? && args.value.None?
    ensures var tx := EstimateGas(api, args).calls[0].tx;
            tx.gas == DefaultRPCGasLimit && tx.gasPrice == DefaultGasPrice && tx.value == 0
  {
  }

  /** `eth_call` and `eth_estimateGas` run the same transaction, and agree on
      failing when the backend reports the same status for both. */
  lemma CallAndEstimateAgree(api: Api, args: CallArgs)
    ensures Call(api, args, 0).calls[0].tx == EstimateGas(api, args).calls[0].tx
    ensures var (tx, from) := BuildCallTx(args);
            api.backend.call(tx, from).status == api.backend.estimateGas(tx, from).status ==>
              (Call(api, args, 0).value.Success? <==> EstimateGas(api, args).value.Success?)
  {
  }

  /** The hash `eth_sendTransaction` answers with is the hash
      `eth_sendRawTransaction` answers with for the bytes it submitted,
      provided decoding inverts encoding: signing locally and submitting the
      signed bytes oneself give the same transaction hash. */
  lemma SendMatchesRawSubmission(api: Api, args: SendTxArgs)
    requires CodecRoundTrip(api.lib)
    requires SendTransaction(api, args).value.err.None?
    ensures var sent := SendTransaction(api, args);
            var raw := sent.calls[|sent.calls| - 1].data;
            SendRawTransaction(api, raw) == Reply(sent.value, [SendRawTxReq(raw)])
  {
  }
}

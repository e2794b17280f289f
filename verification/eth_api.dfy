/** The `eth_*` JSON-RPC façade: each RPC method as a pure function of the
    façade's state (backend snapshot, signer registry, library primitives)
    and its arguments. Every reply also records the backend requests the
    method issued, in order. */
module EthApi {
  import opened Wrappers
  import opened EthTypes
  import opened Backends
  import opened Primitives
  import opened CallBuilder
  import opened AddressOrder

  /** What an RPC method answers, and the backend requests it issued. */
  datatype Reply<T> = Reply(value: T, calls: seq<Request>)

  /** The response shapes built by the (unmodelled) response encoders. */
  datatype RpcBlock = RpcBlock(block: Block, txs: seq<StoredTx>)
  datatype RpcTx = RpcTx(tx: StoredTx)
  datatype RpcReceipt = RpcReceipt(tx: StoredTx)

  /** A submission's answer: Go returns a hash together with an error. */
  datatype HashAnswer = HashAnswer(hash: Hash, err: Option<Error>)

  /** The façade's state: the backend, the signer registry and the library
      primitives it calls. */
  datatype Api = Api(backend: Backend, accounts: map<Address, PrivKey>, lib: Primitives)

  // ---------------------------------------------------------------------
  // eth_accounts

  /** The registry's addresses, collected in whatever order the map yields
      them and then sorted byte-wise. */
  method Accounts(api: Api) returns (addrs: seq<Address>)
    ensures StrictlySorted(addrs)
    ensures NoDuplicates(addrs)
    ensures forall a :: a in addrs <==> a in api.accounts
  {
    var collected: seq<Address> := [];
    var rest := api.accounts.Keys;
    while rest != {}
      invariant rest <= api.accounts.Keys
      invariant NoDuplicates(collected)
      invariant forall a :: a in collected <==> a in api.accounts && a !in rest
      decreases rest
    {
      var a :| a in rest;
      collected := collected + [a];
      rest := rest - {a};
    }
    addrs := SortAddresses(collected);
    SortedHasNoDuplicates(addrs);
  }

  // ---------------------------------------------------------------------
  // eth_getBalance

  /** The balance of `addr` at the latest height (the requested height is
      ignored). An account the backend does not know has balance 0. */
  function GetBalance(api: Api, addr: Address, blockNum: I64): (r: Reply<Result<nat, Error>>)
    ensures r.calls == [GetBalanceReq(addr, LatestBlockNumber)]
    ensures r.value.Success? <==> api.backend.GetBalance(addr).Success? || api.backend.GetBalance(addr) == Failure(AccNotFound)
    ensures api.backend.GetBalance(addr).Success? ==> r.value == api.backend.GetBalance(addr)
    ensures api.backend.GetBalance(addr) == Failure(AccNotFound) ==> r.value == Success(0)
    ensures r.value.Failure? ==> api.backend.GetBalance(addr) == Failure(r.value.error)
  {
    var b := api.backend.GetBalance(addr);
    var calls := [GetBalanceReq(addr, LatestBlockNumber)];
    match b
    case Success(v) => Reply(Success(v), calls)
    case Failure(e) => Reply(if e == AccNotFound then Success(0) else Failure(e), calls)
  }

  // ---------------------------------------------------------------------
  // Block lookups

  /** The height the tx-list query is issued for: Go's `uint32(block.Number)`,
      the low 32 bits of the block number. */
  function TxListHeight(number: I64): (h: nat)
    ensures h < 0x1_0000_0000
    ensures (number - h) % 0x1_0000_0000 == 0
    ensures 0 <= number < 0x1_0000_0000 ==> h == number
  {
    number % 0x1_0000_0000
  }

  /** Resolves an RPC block number: non-positive numbers (the "latest",
      "pending" and "earliest" markers included) mean the head block, a
      positive one is looked up exactly. */
  function GetBlockByNum(api: Api, blockNum: I64): (r: Reply<Result<Block, Error>>)
    ensures |r.calls| == 1
    ensures blockNum <= 0 ==> r.calls[0] == CurrentBlockReq && r.value == api.backend.current
    ensures blockNum > 0 ==> r.calls[0] == BlockByNumberReq(blockNum) && r.value == api.backend.BlockByNumber(blockNum)
    ensures r.value.Success? && blockNum > 0 ==> blockNum in api.backend.byNumber
  {
    if blockNum <= 0 then Reply(api.backend.current, [CurrentBlockReq])
    else Reply(api.backend.BlockByNumber(blockNum), [BlockByNumberReq(blockNum)])
  }

  /** The null-on-not-found policy of the two block getters, stated for a
      block lookup that answered `lookup` after issuing `prefix`:
      "not found" and only it gives null; any other lookup error is
      returned as is; a found block is answered with its transactions when
      `fullTx` holds (one extra query, whose failure fails the request) and
      with none otherwise. */
  ghost predicate BlockPolicy(b: Backend, lookup: Result<Block, Error>, fullTx: bool,
                              prefix: seq<Request>, r: Reply<Result<Option<RpcBlock>, Error>>)
  {
    && (r.value == Success(None) <==> lookup == Failure(BlockNotFound))
    && (lookup.Failure? ==> r.calls == prefix)
    && (lookup.Failure? && lookup.error != BlockNotFound ==> r.value == Failure(lookup.error))
    && (lookup.Success? && !fullTx ==>
          r.calls == prefix && r.value == Success(Some(RpcBlock(lookup.value, []))))
    && (lookup.Success? && fullTx ==>
          var h := TxListHeight(lookup.value.number);
          && r.calls == prefix + [TxListByHeightReq(h)]
          && (b.TxListByHeight(h).Success? ==> r.value == Success(Some(RpcBlock(lookup.value, b.TxListByHeight(h).value))))
          && (b.TxListByHeight(h).Failure? ==> r.value == Failure(b.TxListByHeight(h).error)))
  }

  /** Shapes the answer of a block lookup. */
  function BlockResponse(api: Api, lookup: Result<Block, Error>, fullTx: bool, prefix: seq<Request>)
    : (r: Reply<Result<Option<RpcBlock>, Error>>)
    ensures BlockPolicy(api.backend, lookup, fullTx, prefix, r)
  {
    match lookup
    case Failure(e) =>
      Reply(if e == BlockNotFound then Success(None) else Failure(e), prefix)
    case Success(block) =>
      if !fullTx then Reply(Success(Some(RpcBlock(block, []))), prefix)
      else
        var h := TxListHeight(block.number);
        var calls := prefix + [TxListByHeightReq(h)];
        match api.backend.TxListByHeight(h)
        case Failure(e) => Reply(Failure(e), calls)
        case Success(txs) => Reply(Success(Some(RpcBlock(block, txs))), calls)
  }

  function GetBlockByHash(api: Api, hash: Hash, fullTx: bool): (r: Reply<Result<Option<RpcBlock>, Error>>)
    ensures BlockPolicy(api.backend, api.backend.BlockByHash(hash), fullTx, [BlockByHashReq(hash)], r)
  {
    BlockResponse(api, api.backend.BlockByHash(hash), fullTx, [BlockByHashReq(hash)])
  }

  function GetBlockByNumber(api: Api, blockNum: I64, fullTx: bool): (r: Reply<Result<Option<RpcBlock>, Error>>)
    ensures var byNum := GetBlockByNum(api, blockNum);
            BlockPolicy(api.backend, byNum.value, fullTx, byNum.calls, r)
  {
    var byNum := GetBlockByNum(api, blockNum);
    BlockResponse(api, byNum.value, fullTx, byNum.calls)
  }

  /** The number of transactions of the block with this hash, or null on any
      lookup error. */
  function GetBlockTransactionCountByHash(api: Api, hash: Hash): (r: Reply<Option<nat>>)
    ensures r.calls == [BlockByHashReq(hash)]
    ensures r.value.Some? <==> api.backend.BlockByHash(hash).Success?
    ensures r.value.Some? ==> r.value.value == |api.backend.BlockByHash(hash).value.transactions|
  {
    match api.backend.BlockByHash(hash)
    case Failure(_) => Reply(None, [BlockByHashReq(hash)])
    case Success(block) => Reply(Some(|block.transactions|), [BlockByHashReq(hash)])
  }

  /** The number of transactions of the resolved block, or null on any
      lookup error. */
  function GetBlockTransactionCountByNumber(api: Api, blockNum: I64): (r: Reply<Option<nat>>)
    ensures r.calls == GetBlockByNum(api, blockNum).calls
    ensures r.value.Some? <==> GetBlockByNum(api, blockNum).value.Success?
    ensures r.value.Some? ==> r.value.value == |GetBlockByNum(api, blockNum).value.value.transactions|
  {
    var byNum := GetBlockByNum(api, blockNum);
    match byNum.value
    case Failure(_) => Reply(None, byNum.calls)
    case Success(block) => Reply(Some(|block.transactions|), byNum.calls)
  }

  // ---------------------------------------------------------------------
  // Transaction lookups

  /** The transaction at position `idx` of `block`: null without consulting
      the backend when the index is out of range, otherwise the lookup of
      exactly that hash, whose error is passed on. */
  function GetTxByIdx(api: Api, block: Block, idx: U64): (r: Reply<Result<Option<RpcTx>, Error>>)
    ensures idx >= |block.transactions| ==> r == Reply(Success(None), [])
    ensures idx < |block.transactions| ==>
              && r.calls == [GetTransactionReq(block.transactions[idx])]
              && r.value != Success(None)
              && (r.value.Failure? <==> api.backend.GetTransaction(block.transactions[idx]).Failure?)
    ensures r.value.Failure? ==>
              idx < |block.transactions| && api.backend.GetTransaction(block.transactions[idx]) == Failure(r.value.error)
    ensures r.value.Success? && r.value.value.Some? ==>
              idx < |block.transactions| && api.backend.GetTransaction(block.transactions[idx]) == Success(r.value.value.value.tx)
  {
    if idx >= |block.transactions| then Reply(Success(None), [])
    else
      var txHash := block.transactions[idx];
      match api.backend.GetTransaction(txHash)
      case Failure(e) => Reply(Failure(e), [GetTransactionReq(txHash)])
      case Success(tx) => Reply(Success(Some(RpcTx(tx))), [GetTransactionReq(txHash)])
  }

  /** Indexes into the block with this hash; every block-lookup error,
      "not found" included, is passed on. */
  function GetTransactionByBlockHashAndIndex(api: Api, hash: Hash, idx: U64): (r: Reply<Result<Option<RpcTx>, Error>>)
    ensures |r.calls| >= 1 && r.calls[0] == BlockByHashReq(hash)
    ensures api.backend.BlockByHash(hash).Failure? ==>
              r == Reply(Failure(api.backend.BlockByHash(hash).error), [BlockByHashReq(hash)])
    ensures api.backend.BlockByHash(hash).Success? ==>
              var byIdx := GetTxByIdx(api, api.backend.BlockByHash(hash).value, idx);
              r == Reply(byIdx.value, [BlockByHashReq(hash)] + byIdx.calls)
  {
    match api.backend.BlockByHash(hash)
    case Failure(e) => Reply(Failure(e), [BlockByHashReq(hash)])
    case Success(block) =>
      var byIdx := GetTxByIdx(api, block, idx);
      Reply(byIdx.value, [BlockByHashReq(hash)] + byIdx.calls)
  }

  /** Indexes into the resolved block; every block-lookup error is passed on. */
  function GetTransactionByBlockNumberAndIndex(api: Api, blockNum: I64, idx: U64): (r: Reply<Result<Option<RpcTx>, Error>>)
    ensures var byNum := GetBlockByNum(api, blockNum);
            && (byNum.value.Failure? ==> r == Reply(Failure(byNum.value.error), byNum.calls))
            && (byNum.value.Success? ==>
                  var byIdx := GetTxByIdx(api, byNum.value.value, idx);
                  r == Reply(byIdx.value, byNum.calls + byIdx.calls))
  {
    var byNum := GetBlockByNum(api, blockNum);
    match byNum.value
    case Failure(e) => Reply(Failure(e), byNum.calls)
    case Success(block) =>
      var byIdx := GetTxByIdx(api, block, idx);
      Reply(byIdx.value, byNum.calls + byIdx.calls)
  }

  /** The transaction with this hash, or null on any lookup error. */
  function GetTransactionByHash(api: Api, hash: Hash): (r: Reply<Result<Option<RpcTx>, Error>>)
    ensures r.calls == [GetTransactionReq(hash)]
    ensures r.value.Success?
    ensures r.value.value.Some? <==> api.backend.GetTransaction(hash).Success?
    ensures r.value.value.Some? ==> r.value.value.value.tx == api.backend.GetTransaction(hash).value
  {
    match api.backend.GetTransaction(hash)
    case Failure(_) => Reply(Success(None), [GetTransactionReq(hash)])
    case Success(tx) => Reply(Success(Some(RpcTx(tx))), [GetTransactionReq(hash)])
  }

  /** The receipt of the transaction with this hash, or null on any lookup
      error (the transaction is not yet available). */
  function GetTransactionReceipt(api: Api, hash: Hash): (r: Reply<Result<Option<RpcReceipt>, Error>>)
    ensures r.calls == [GetTransactionReq(hash)]
    ensures r.value.Success?
    ensures r.value.value.Some? <==> api.backend.GetTransaction(hash).Success?
    ensures r.value.value.Some? ==> r.value.value.value.tx == api.backend.GetTransaction(hash).value
  {
    match api.backend.GetTransaction(hash)
    case Failure(_) => Reply(Success(None), [GetTransactionReq(hash)])
    case Success(tx) => Reply(Success(Some(RpcReceipt(tx))), [GetTransactionReq(hash)])
  }

  /** The account's nonce (the requested height is ignored); a lookup error
      is passed on. */
  function GetTransactionCount(api: Api, addr: Address, blockNum: I64): (r: Reply<Result<U64, Error>>)
    ensures r.calls == [GetNonceReq(addr)]
    ensures r.value == api.backend.GetNonce(addr)
  {
    match api.backend.GetNonce(addr)
    case Failure(e) => Reply(Failure(e), [GetNonceReq(addr)])
    case Success(n) => Reply(Success(n), [GetNonceReq(addr)])
  }

  // ---------------------------------------------------------------------
  // Uncles: unsupported, always the empty answer and never an error.

  function GetUncleByBlockHashAndIndex(api: Api, hash: Hash, idx: U64): (r: Reply<Option<RpcBlock>>)
    ensures r.value.None? && r.calls == []
  {
    Reply(None, [])
  }

  function GetUncleByBlockNumberAndIndex(api: Api, number: U64, idx: U64): (r: Reply<Option<RpcBlock>>)
    ensures r.value.None? && r.calls == []
  {
    Reply(None, [])
  }

  function GetUncleCountByBlockHash(api: Api, hash: Hash): (r: Reply<nat>)
    ensures r.value == 0 && r.calls == []
  {
    Reply(0, [])
  }

  function GetUncleCountByBlockNumber(api: Api, blockNum: I64): (r: Reply<nat>)
    ensures r.value == 0 && r.calls == []
  {
    Reply(0, [])
  }

  // ---------------------------------------------------------------------
  // Submission

  /** Hands the wire bytes to the backend. A rejection answers with the
      backend's hash and error; an acceptance answers with `localHash`,
      whatever hash the backend acknowledged with. */
  function Submit(api: Api, raw: Bytes, localHash: Hash, prefix: seq<Request>): (r: Reply<HashAnswer>)
    ensures r.calls == prefix + [SendRawTxReq(raw)]
    ensures r.value.err == api.backend.sendRawTx(raw).err
    ensures r.value.err.None? ==> r.value.hash == localHash
    ensures r.value.err.Some? ==> r.value.hash == api.backend.sendRawTx(raw).hash
  {
    var ack := api.backend.sendRawTx(raw);
    Reply(if ack.err.Some? then HashAnswer(ack.hash, ack.err) else HashAnswer(localHash, None),
          prefix + [SendRawTxReq(raw)])
  }

  /** Submits caller-signed bytes: they are decoded first, a decode failure
      answers with the zero hash and the error and submits nothing; on
      acceptance the answer is the decoded transaction's own hash. */
  function SendRawTransaction(api: Api, data: Bytes): (r: Reply<HashAnswer>)
    ensures api.lib.decodeTx(data).Failure? ==>
              r == Reply(HashAnswer(ZeroHash, Some(api.lib.decodeTx(data).error)), [])
    ensures api.lib.decodeTx(data).Success? ==> r.calls == [SendRawTxReq(data)]
    ensures r.value.err.None? <==> api.lib.decodeTx(data).Success? && api.backend.sendRawTx(data).err.None?
    ensures r.value.err.None? ==> r.value.hash == api.lib.txHash(api.lib.decodeTx(data).value)
    ensures api.lib.decodeTx(data).Success? ==>
              && r.value.err == api.backend.sendRawTx(data).err
              && (r.value.err.Some? ==> r.value.hash == api.backend.sendRawTx(data).hash)
  {
    match api.lib.decodeTx(data)
    case Failure(e) => Reply(HashAnswer(ZeroHash, Some(e)), [])
    case Success(tx) => Submit(api, data, api.lib.txHash(tx), [])
  }

  /** Fills in an absent nonce from the backend; leaves it absent when the
      backend cannot tell it. A supplied nonce is kept and nothing is asked. */
  function FillNonce(b: Backend, args: SendTxArgs): (r: Reply<SendTxArgs>)
    ensures r.value.(nonce := args.nonce) == args
    ensures args.nonce.Some? ==> r == Reply(args, [])
    ensures args.nonce.None? ==> r.calls == [GetNonceReq(args.from)]
    ensures args.nonce.None? ==> (r.value.nonce.Some? <==> b.GetNonce(args.from).Success?)
    ensures args.nonce.None? && r.value.nonce.Some? ==> r.value.nonce.value == b.GetNonce(args.from).value
  {
    if args.nonce.Some? then Reply(args, [])
    else
      match b.GetNonce(args.from)
      case Success(n) => Reply(args.(nonce := Some(n)), [GetNonceReq(args.from)])
      case Failure(_) => Reply(args, [GetNonceReq(args.from)])
  }

  /** Signs and submits on behalf of a registry account. An unknown sender
      is refused before the backend is consulted. On acceptance the answer
      is the locally computed hash of the signed transaction. */
  function SendTransaction(api: Api, args: SendTxArgs): (r: Reply<HashAnswer>)
    ensures args.from !in api.accounts ==>
              r == Reply(HashAnswer(ZeroHash, Some(UnknownAccount(args.from))), [])
    ensures args.from in api.accounts ==>
              var filled := FillNonce(api.backend, args);
              var built := api.lib.txFromSendArgs(filled.value);
              var calls := filled.calls + [ChainIdReq];
              && (built.Failure? ==> r == Reply(HashAnswer(ZeroHash, Some(built.error)), filled.calls))
              && (built.Success? ==>
                    var signed := api.lib.signTx(built.value, api.backend.chainId, api.accounts[args.from]);
                    && (signed.Failure? ==> r == Reply(HashAnswer(ZeroHash, Some(signed.error)), calls))
                    && (signed.Success? ==>
                          var raw := api.lib.encodeTx(signed.value);
                          && (raw.Failure? ==> r == Reply(HashAnswer(ZeroHash, Some(raw.error)), calls))
                          && (raw.Success? ==>
                                && r.calls == calls + [SendRawTxReq(raw.value)]
                                && r.value.err == api.backend.sendRawTx(raw.value).err
                                && (r.value.err.None? ==> r.value.hash == api.lib.txHash(signed.value))
                                && (r.value.err.Some? ==> r.value.hash == api.backend.sendRawTx(raw.value).hash))))
  {
    if args.from !in api.accounts then
      Reply(HashAnswer(ZeroHash, Some(UnknownAccount(args.from))), [])
    else
      var key := api.accounts[args.from];
      var filled := FillNonce(api.backend, args);
      match api.lib.txFromSendArgs(filled.value)
      case Failure(e) => Reply(HashAnswer(ZeroHash, Some(e)), filled.calls)
      case Success(tx) =>
        var calls := filled.calls + [ChainIdReq];
        match api.lib.signTx(tx, api.backend.chainId, key)
        case Failure(e) => Reply(HashAnswer(ZeroHash, Some(e)), calls)
        case Success(signed) =>
          match api.lib.encodeTx(signed)
          case Failure(e) => Reply(HashAnswer(ZeroHash, Some(e)), calls)
          case Success(raw) =>
            Submit(api, raw, api.lib.txHash(signed), calls)
  }

  // ---------------------------------------------------------------------
  // Execution

  /** The status classification shared by `eth_call` and
      `eth_estimateGas`: a non-failure status yields the payload, a failure
      status yields the error built from the status and the return data. */
  function ClassifyExecution<T>(lib: Primitives, status: int, retData: Bytes, payload: T): (r: Result<T, Error>)
    ensures r.Success? <==> !lib.statusIsFailure(status)
    ensures r.Success? ==> r.value == payload
    ensures r.Failure? ==> r.error == CallError(status, retData)
  {
    if !lib.statusIsFailure(status) then Success(payload) else Failure(CallError(status, retData))
  }

  /** Executes the defaulted call (the requested height is ignored). */
  function Call(api: Api, args: CallArgs, blockNr: I64): (r: Reply<Result<Bytes, Error>>)
    ensures |r.calls| == 1 && r.calls[0].CallReq?
    ensures (r.calls[0].tx, r.calls[0].from) == BuildCallTx(args)
    ensures var out := api.backend.call(r.calls[0].tx, r.calls[0].from);
            && (r.value.Success? <==> !api.lib.statusIsFailure(out.status))
            && (r.value.Success? ==> r.value.value == out.data)
            && (r.value.Failure? ==> r.value.error == CallError(out.status, out.data))
  {
    var (tx, from) := BuildCallTx(args);
    var out := api.backend.call(tx, from);
    Reply(ClassifyExecution(api.lib, out.status, out.data, out.data), [CallReq(tx, from)])
  }

  /** Estimates gas for the defaulted call. */
  function EstimateGas(api: Api, args: CallArgs): (r: Reply<Result<U64, Error>>)
    ensures |r.calls| == 1 && r.calls[0].EstimateGasReq?
    ensures (r.calls[0].tx, r.calls[0].from) == BuildCallTx(args)
    ensures var out := api.backend.estimateGas(r.calls[0].tx, r.calls[0].from);
            && (r.value.Success? <==> !api.lib.statusIsFailure(out.status))
            && (r.value.Success? ==> r.value.value == out.gas)
            && (r.value.Failure? ==> r.value.error == CallError(out.status, out.data))
  {
    var (tx, from) := BuildCallTx(args);
    var out := api.backend.estimateGas(tx, from);
    Reply(ClassifyExecution(api.lib, out.status, out.data, out.gas), [EstimateGasReq(tx, from)])
  }
}

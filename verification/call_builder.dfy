/** Turning the optional fields of `eth_call`/`eth_estimateGas` arguments
    into a fully defaulted transaction and a sender. */
module CallBuilder {
  import opened Wrappers
  import opened EthTypes

  /** The transaction executed for a call and the address it is executed
      as. Never fails: every absent field gets a fixed default, the nonce is
      always 0, and an absent recipient becomes the zero address (so the
      result always has a recipient: a call is never a contract creation). */
  function BuildCallTx(args: CallArgs): (r: (GethTx, Address))
    ensures r.0.nonce == 0
    ensures r.0.to.Some?
    ensures args.from.None? ==> r.1 == ZeroAddress
    ensures args.from.Some? ==> r.1 == args.from.value
    ensures args.to.None? ==> r.0.to == Some(ZeroAddress)
    ensures args.to.Some? ==> r.0.to == args.to
    ensures args.value.None? ==> r.0.value == 0
    ensures args.value.Some? ==> r.0.value == args.value.value
    ensures args.gas.None? ==> r.0.gas == DefaultRPCGasLimit
    ensures args.gas.Some? ==> r.0.gas == args.gas.value
    ensures args.gasPrice.None? ==> r.0.gasPrice == DefaultGasPrice
    ensures args.gasPrice.Some? ==> r.0.gasPrice == args.gasPrice.value
    ensures args.data.None? ==> r.0.data == []
    ensures args.data.Some? ==> r.0.data == args.data.value
  {
    (GethTx(0, Some(args.to.GetOr(ZeroAddress)), args.value.GetOr(0),
            args.gas.GetOr(DefaultRPCGasLimit), args.gasPrice.GetOr(DefaultGasPrice),
            args.data.GetOr([])),
     args.from.GetOr(ZeroAddress))
  }

  /** The arguments that spell out every field of a call explicitly. */
  function ExplicitArgs(tx: GethTx, from: Address): CallArgs {
    CallArgs(Some(from), tx.to, Some(tx.gas), Some(tx.gasPrice), Some(tx.value), Some(tx.data))
  }

  /** The arguments with every absent field replaced by its default. */
  function WithDefaults(args: CallArgs): CallArgs {
    CallArgs(Some(args.from.GetOr(ZeroAddress)), Some(args.to.GetOr(ZeroAddress)),
             Some(args.gas.GetOr(DefaultRPCGasLimit)), Some(args.gasPrice.GetOr(DefaultGasPrice)),
             Some(args.value.GetOr(0)), Some(args.data.GetOr([])))
  }

  /** Building inverts spelling out: every transaction the builder can
      produce (nonce 0, a recipient present) is rebuilt exactly from its
      explicit arguments. */
  lemma BuildCallTxRoundTrip(tx: GethTx, from: Address)
    requires tx.nonce == 0 && tx.to.Some?
    ensures BuildCallTx(ExplicitArgs(tx, from)) == (tx, from)
  {
  }

  /** Leaving a field out is the same as supplying its default. */
  lemma AbsentMeansDefault(args: CallArgs)
    ensures BuildCallTx(args) == BuildCallTx(WithDefaults(args))
  {
  }

  /** In particular an absent recipient is indistinguishable from the zero
      address. */
  lemma AbsentRecipientIsZeroAddress(args: CallArgs)
    requires args.to.None?
    ensures BuildCallTx(args) == BuildCallTx(args.(to := Some(ZeroAddress)))
  {
  }
}

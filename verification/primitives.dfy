/** The calls the façade relies on that are defined outside its own file:
    transaction codec, signing, hashing, key parsing, status classification
    and the construction of a transaction from send arguments. They are
    uninterpreted: any total functions of these types may stand here. */
module Primitives {
  import opened Wrappers
  import opened EthTypes

  datatype Primitives = Primitives(
    /** Decoding of a signed transaction from its wire bytes. */
    decodeTx: Bytes -> Result<GethTx, Error>,
    /** Encoding of a signed transaction to its wire bytes. */
    encodeTx: GethTx -> Result<Bytes, Error>,
    /** Signing with a chain id bound into the signature. */
    signTx: (GethTx, nat, PrivKey) -> Result<GethTx, Error>,
    /** The transaction's content hash. */
    txHash: GethTx -> Hash,
    /** The classification of execution status codes. */
    statusIsFailure: int -> bool,
    /** Parsing of a hex-encoded private key. */
    hexToPrivKey: string -> Option<PrivKey>,
    /** The address of a key's public half. */
    pubkeyToAddress: PrivKey -> Address,
    /** Construction of an unsigned transaction from send arguments. */
    txFromSendArgs: SendTxArgs -> Result<GethTx, Error>)

  /** Decoding inverts encoding. */
  ghost predicate CodecRoundTrip(lib: Primitives) {
    forall t | lib.encodeTx(t).Success? :: lib.decodeTx(lib.encodeTx(t).value) == Success(t)
  }
}

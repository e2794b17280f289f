/** The local signer registry: the test keys the node operator opted in for
    server-side signing, keyed by their address. */
module Signer {
  import opened Wrappers
  import opened EthTypes
  import opened Primitives

  type Registry = map<Address, PrivKey>

  /** Test key `i` parses, and its key belongs to address `a`. */
  ghost predicate LoadsAs(lib: Primitives, testKeys: seq<string>, i: int, a: Address)
  {
    && 0 <= i < |testKeys|
    && lib.hexToPrivKey(testKeys[i]).Some?
    && lib.pubkeyToAddress(lib.hexToPrivKey(testKeys[i]).value) == a
  }

  /** Test key `i` is the last one that loads as address `a`. */
  ghost predicate LastLoadFor(lib: Primitives, testKeys: seq<string>, i: int, a: Address)
  {
    && LoadsAs(lib, testKeys, i, a)
    && forall j | i < j < |testKeys| :: !LoadsAs(lib, testKeys, j, a)
  }

  /** How loading relates a key list to the list without its last key. */
  lemma LoadsOfPrefix(lib: Primitives, testKeys: seq<string>)
    requires |testKeys| > 0
    ensures var n := |testKeys| - 1;
            && (forall i, a :: LoadsAs(lib, testKeys[..n], i, a) <==> LoadsAs(lib, testKeys, i, a) && i < n)
            && (forall i, a | LastLoadFor(lib, testKeys, i, a) && i < n ::
                  LastLoadFor(lib, testKeys[..n], i, a) && !LoadsAs(lib, testKeys, n, a))
  {
  }

  /** Builds the registry from the configured hex keys. A key that does not
      parse is skipped; a later key for an address replaces an earlier one. */
  function LoadTestAccounts(lib: Primitives, testKeys: seq<string>): (r: Registry)
    ensures forall a :: a in r <==> exists i :: LoadsAs(lib, testKeys, i, a)
    ensures forall a | a in r :: lib.pubkeyToAddress(r[a]) == a
    ensures forall i, a | LastLoadFor(lib, testKeys, i, a) ::
              a in r && r[a] == lib.hexToPrivKey(testKeys[i]).value
    decreases |testKeys|
  {
    if |testKeys| == 0 then map[]
    else
      var n := |testKeys| - 1;
      var accs := LoadTestAccounts(lib, testKeys[..n]);
      LoadsOfPrefix(lib, testKeys);
      match lib.hexToPrivKey(testKeys[n])
      case None => accs
      case Some(key) =>
        assert LoadsAs(lib, testKeys, n, lib.pubkeyToAddress(key));
        accs[lib.pubkeyToAddress(key) := key]
  }
}

/** The deterministic ordering `eth_accounts` lists addresses in: byte-wise,
    most significant byte first. */
module AddressOrder {
  import opened EthTypes

  /** `a` precedes `b` when, at the first position where they differ, `a`
      holds the smaller byte. Equal strings precede nothing. */
  predicate LexLess(a: Bytes, b: Bytes)
    decreases |a|
  {
    if |a| == 0 || |b| == 0 then false
    else if a[0] < b[0] then true
    else if a[0] > b[0] then false
    else LexLess(a[1..], b[1..])
  }

  lemma {:induction false} LexLessIrreflexive(a: Bytes)
    ensures !LexLess(a, a)
    decreases |a|
  {
    if |a| > 0 {
      LexLessIrreflexive(a[1..]);
    }
  }

  lemma {:induction false} LexLessAsymmetric(a: Bytes, b: Bytes)
    requires LexLess(a, b)
    ensures !LexLess(b, a)
    decreases |a|
  {
    if a[0] == b[0] {
      LexLessAsymmetric(a[1..], b[1..]);
    }
  }

  lemma {:induction false} LexLessTransitive(a: Bytes, b: Bytes, c: Bytes)
    requires LexLess(a, b) && LexLess(b, c)
    ensures LexLess(a, c)
    decreases |a|
  {
    if a[0] == b[0] && b[0] == c[0] {
      LexLessTransitive(a[1..], b[1..], c[1..]);
    }
  }

  /** Any two distinct strings of one length are ordered one way or the other. */
  lemma {:induction false} LexLessTotal(a: Bytes, b: Bytes)
    requires |a| == |b| && a != b
    ensures LexLess(a, b) || LexLess(b, a)
    decreases |a|
  {
    if a[0] == b[0] {
      assert a == [a[0]] + a[1..] && b == [b[0]] + b[1..];
      LexLessTotal(a[1..], b[1..]);
    }
  }

  /** The comparison closure handed to the sort in `Accounts`: a loop over
      the 20 byte positions that stops at the first difference. */
  method AddressLess(a: Address, b: Address) returns (less: bool)
    ensures less == LexLess(a, b)
  {
    var k := 0;
    while k < AddressLength
      invariant 0 <= k <= AddressLength
      invariant LexLess(a, b) == LexLess(a[k..], b[k..])
    {
      if a[k] < b[k] {
        return true;
      } else if a[k] > b[k] {
        return false;
      }
      assert a[k..][1..] == a[k + 1..] && b[k..][1..] == b[k + 1..];
      k := k + 1;
    }
    return false;
  }

  predicate StrictlySorted(s: seq<Address>) {
    forall i, j | 0 <= i < j < |s| :: LexLess(s[i], s[j])
  }

  predicate NoDuplicates(s: seq<Address>) {
    forall i, j | 0 <= i < j < |s| :: s[i] != s[j]
  }

  /** A strictly sorted listing never repeats an address. */
  lemma SortedHasNoDuplicates(s: seq<Address>)
    requires StrictlySorted(s)
    ensures NoDuplicates(s)
  {
    forall i, j | 0 <= i < j < |s|
      ensures s[i] != s[j]
    {
      LexLessIrreflexive(s[i]);
    }
  }

  /** Places `x` into a strictly sorted listing that lacks it. */
  function Insert(s: seq<Address>, x: Address): (r: seq<Address>)
    requires StrictlySorted(s) && x !in s
    ensures StrictlySorted(r)
    ensures forall a :: a in r <==> a == x || a in s
    ensures |r| == |s| + 1
  {
    if |s| == 0 then [x]
    else if LexLess(x, s[0]) then
      PrecedesHead(s, x);
      [x] + s
    else
      LexLessTotal(x, s[0]);
      var rest := Insert(s[1..], x);
      assert forall a :: a in rest ==> LexLess(s[0], a);
      [s[0]] + rest
  }

  /** What precedes the head of a strictly sorted listing precedes all of it. */
  lemma PrecedesHead(s: seq<Address>, x: Address)
    requires StrictlySorted(s) && |s| > 0 && LexLess(x, s[0])
    ensures forall j | 0 <= j < |s| :: LexLess(x, s[j])
  {
    forall j | 0 < j < |s|
      ensures LexLess(x, s[j])
    {
      LexLessTransitive(x, s[0], s[j]);
    }
  }

  /** Insertion sort of a duplicate-free list of addresses. */
  function SortAddresses(s: seq<Address>): (r: seq<Address>)
    requires NoDuplicates(s)
    ensures StrictlySorted(r)
    ensures forall a :: a in r <==> a in s
    ensures |r| == |s|
  {
    if |s| == 0 then []
    else
      var init := s[..|s| - 1];
      assert s == init + [s[|s| - 1]];
      Insert(SortAddresses(init), s[|s| - 1])
  }

  /** Two strictly sorted listings of the same addresses are the same
      listing: the sorted order does not depend on the order the addresses
      were collected in. */
  lemma {:induction false} SortedListingUnique(s: seq<Address>, t: seq<Address>)
    requires StrictlySorted(s) && StrictlySorted(t)
    requires forall a :: a in s <==> a in t
    ensures s == t
    decreases |s|
  {
    if |s| == 0 {
      forall a
        ensures a !in multiset(t)
      {
        assert a !in s;
      }
      assert multiset(t) == multiset{};
      assert |t| == |multiset(t)| == 0;
    } else {
      assert s[0] in t;
      assert t[0] in s;
      if s[0] != t[0] {
        var i :| 0 <= i < |s| && s[i] == t[0];
        var j :| 0 <= j < |t| && t[j] == s[0];
        assert LexLess(s[0], t[0]) && LexLess(t[0], s[0]);
        LexLessAsymmetric(s[0], t[0]);
      }
      forall a
        ensures a in s[1..] <==> a in t[1..]
      {
        if a in s[1..] {
          var i :| 1 <= i < |s| && s[i] == a;
          LexLessIrreflexive(s[0]);
          assert a != s[0] && a in t;
          var j :| 0 <= j < |t| && t[j] == a;
          assert j != 0 && a == t[1..][j - 1];
        }
        if a in t[1..] {
          var j :| 1 <= j < |t| && t[j] == a;
          LexLessIrreflexive(t[0]);
          assert a != t[0] && a in s;
          var i :| 0 <= i < |s| && s[i] == a;
          assert i != 0 && a == s[1..][i - 1];
        }
      }
      SortedListingUnique(s[1..], t[1..]);
      assert s == [s[0]] + s[1..] && t == [t[0]] + t[1..];
    }
  }
}

/**
 Values shared by every part of the model: addresses, hashes, block headers and the two
 failure datatypes.

 Hashing is structural.  `HashOf(h)` is the hash of header `h`, so equal hashes mean equal
 headers, no header hashes to the zero hash, and a hash determines all ancestors of its block.
 */
module Primitives {

  datatype Option<+T> = None | Some(value: T)

  datatype Result<+T, +E> = Ok(value: T) | Err(error: E) {
    predicate IsFailure() {
      Err?
    }

    function PropagateFailure<U>(): Result<U, E>
      requires Err?
    {
      Err(error)
    }

    function Extract(): T
      requires Ok?
    {
      value
    }
  }

  type byte = b: int | 0 <= b < 256

  type pos = n: nat | 0 < n witness 1

  const ADDRESS_SPACE: nat := 0x1_0000000000_0000000000_0000000000_0000000000

  /** A 20-byte account address, as the number its bytes spell in big-endian order. */
  type Address = a: nat | a < ADDRESS_SPACE

  const ZERO_ADDRESS: Address := 0

  datatype Hash = Raw(bits: nat) | HashOf(header: Header)

  const ZERO_HASH := Raw(0)

  /** `body` stands for the header fields no consensus rule inspects: state and transaction
      roots, bloom, gas and base fee. */
  datatype Header = Header(
    parentHash: Hash,
    uncleHash: Hash,
    coinbase: Address,
    number: nat,
    difficulty: nat,
    time: nat,
    extra: seq<byte>,
    mixDigest: Hash,
    nonce: nat,
    body: nat)

  /** The hash of the empty uncle list. */
  const EMPTY_UNCLE_HASH := Raw(1)

  // ----- Sorted address lists

  ghost predicate IsAscending(r: seq<Address>) {
    forall i, j :: 0 <= i < j < |r| ==> r[i] < r[j]
  }

  ghost predicate Lists(r: seq<Address>, s: set<Address>) {
    forall a: Address :: a in r <==> a in s
  }

  predicate IsLeast(m: Address, s: set<Address>) {
    m in s && forall a | a in s :: m <= a
  }

  lemma {:induction false} FindLeast(s: set<Address>) returns (m: Address)
    requires s != {}
    ensures IsLeast(m, s)
  {
    var x :| x in s;
    m := x;
    assert forall a | a in s :: a == x || a in s - {x};
    if s != {x} {
      var rest := FindLeast(s - {x});
      m := if rest < x then rest else x;
    }
  }

  lemma LeastExists(s: set<Address>)
    requires s != {}
    ensures exists m :: IsLeast(m, s)
  {
    var m := FindLeast(s);
  }

  function Least(s: set<Address>): (m: Address)
    requires s != {}
    ensures IsLeast(m, s)
  {
    LeastExists(s);
    var m :| IsLeast(m, s);
    m
  }

  /** The members of `s` in ascending byte order. */
  function Ascending(s: set<Address>): (r: seq<Address>)
    ensures IsAscending(r) && Lists(r, s) && |r| == |s|
  {
    if s == {} then [] else [Least(s)] + Ascending(s - {Least(s)})
  }

  /** Two ascending lists of the same addresses are the same list, so the order in which the
      addresses were collected before sorting does not matter. */
  lemma {:induction false} AscendingIsUnique(r: seq<Address>, s: seq<Address>)
    requires IsAscending(r) && IsAscending(s)
    requires forall a: Address :: a in r <==> a in s
    ensures r == s
  {
    assert r != [] ==> r[0] in s;
    assert s != [] ==> s[0] in r;
    if r != [] && s != [] {
      assert r[0] in s && s[0] in r;
      assert r[0] == s[0];
      forall a: Address
        ensures a in r[1..] <==> a in s[1..]
      {
        if a in r[1..] { assert a != r[0] && a in s; }
        if a in s[1..] { assert a != s[0] && a in r; }
      }
      AscendingIsUnique(r[1..], s[1..]);
    }
  }

  // ----- Sequences and sets

  lemma TakeNext<T>(s: seq<T>, i: nat)
    requires i < |s|
    ensures s[..i + 1] == s[..i] + [s[i]]
  {
  }

  lemma {:induction false} SubsetIsNoLarger<T>(s: set<T>, t: set<T>)
    requires s <= t
    ensures |s| <= |t|
  {
    if s != {} {
      var x :| x in s;
      SubsetIsNoLarger(s - {x}, t - {x});
    }
  }

  // ----- Quotients

  lemma SmallMultiple(k: int, d: pos)
    requires k * d < d && 0 < k * d + d
    ensures k == 0
  {
  }

  lemma QuotientIsUnique(n: nat, d: pos, q: nat, r: nat)
    requires n == q * d + r && r < d
    ensures n / d == q && n % d == r
  {
    assert (n / d - q) * d == r - n % d;
    SmallMultiple(n / d - q, d);
  }
}

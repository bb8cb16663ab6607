/** Taking turns in address order, as Clique signers and QBFT proposers do. */
module Turns {
  import opened Primitives

  ghost function Below(s: set<Address>, a: Address): set<Address> {
    set b | b in s && b < a
  }

  /** How many members of `s` come before `a`. */
  ghost function Rank(s: set<Address>, a: Address): nat {
    |Below(s, a)|
  }

  lemma RankAboveLeast(s: set<Address>, least: Address, a: Address)
    requires IsLeast(least, s) && a in s - {least}
    ensures Rank(s, a) == Rank(s - {least}, a) + 1
  {
    assert Below(s, a) == Below(s - {least}, a) + {least};
  }

  lemma RankOfLeast(s: set<Address>, least: Address)
    requires IsLeast(least, s)
    ensures Rank(s, least) == 0
  {
    assert Below(s, least) == {};
  }

  lemma {:induction false} RankOfIndex(s: set<Address>, i: nat)
    requires i < |s|
    ensures Ascending(s)[i] in s && Rank(s, Ascending(s)[i]) == i
  {
    var least := Least(s);
    var rest := s - {least};
    var order := Ascending(rest);
    assert Ascending(s) == [least] + order;
    if i == 0 {
      RankOfLeast(s, least);
    } else {
      assert Ascending(s)[i] == order[i - 1];
      RankOfIndex(rest, i - 1);
      RankAboveLeast(s, least, order[i - 1]);
    }
  }

  lemma IndexOfRank(s: set<Address>, a: Address)
    requires a in s
    ensures Rank(s, a) < |s| && Ascending(s)[Rank(s, a)] == a
  {
    var r := Ascending(s);
    assert a in r;
    var j :| 0 <= j < |r| && r[j] == a;
    RankOfIndex(s, j);
  }

  /** `n` modulo `size`, by repeated subtraction, which keeps proofs about turns linear. */
  function Slot(n: nat, size: pos): (k: nat)
    ensures k < size
  {
    if n < size then n else Slot(n - size, size)
  }

  lemma {:induction false} SlotIsRemainder(n: nat, size: pos)
    ensures Slot(n, size) == n % size
  {
    if n >= size {
      SlotIsRemainder(n - size, size);
      var q, r := (n - size) / size, (n - size) % size;
      assert (q + 1) * size == q * size + size;
      QuotientIsUnique(n, size, q + 1, r);
    } else {
      QuotientIsUnique(n, size, 0, n);
    }
  }

  /** The address whose turn it is at `n`. */
  function TurnAt(s: set<Address>, n: nat): Address
    requires s != {}
  {
    Ascending(s)[Slot(n, |s|)]
  }

  /** `a` is the member whose rank is `n` modulo the size of the set. */
  ghost predicate IsNext(s: set<Address>, n: nat, a: Address) {
    a in s && Rank(s, a) == Slot(n, |s|)
  }

  /** It is the turn of the member whose rank is `n` modulo the size of the set. */
  lemma TurnIff(s: set<Address>, n: nat, a: Address)
    requires s != {}
    ensures TurnAt(s, n) == a <==> IsNext(s, n, a)
  {
    RankOfIndex(s, Slot(n, |s|));
    if a in s {
      IndexOfRank(s, a);
    }
  }

  lemma {:induction false} SameSlot(a: nat, b: nat, n: pos)
    requires Slot(a, n) == Slot(b, n) && a <= b < a + n
    ensures a == b
  {
    if a >= n {
      SameSlot(a - n, b - n, n);
    }
  }

  /** The offset at which slot `i` comes next. */
  lemma {:induction false} OffsetTo(number: nat, n: pos, i: nat) returns (k: nat)
    requires i < n
    ensures k < n && Slot(number + k, n) == i
  {
    if number >= n {
      k := OffsetTo(number - n, n, i);
    } else {
      k := if i >= number then i - number else i - number + n;
    }
  }

  lemma TurnsAreApart(s: set<Address>, m: nat, j: nat)
    requires s != {} && TurnAt(s, m) == TurnAt(s, j) && m <= j < m + |s|
    ensures m == j
  {
    RankOfIndex(s, Slot(m, |s|));
    RankOfIndex(s, Slot(j, |s|));
    SameSlot(m, j, |s|);
  }

  /** Among any |s| consecutive numbers every member has exactly one turn. */
  lemma OneTurnEach(s: set<Address>, start: nat, a: Address) returns (m: nat)
    requires a in s
    ensures start <= m < start + |s| && TurnAt(s, m) == a
    ensures forall j :: start <= j < start + |s| && TurnAt(s, j) == a ==> j == m
  {
    IndexOfRank(s, a);
    var k := OffsetTo(start, |s|, Rank(s, a));
    m := start + k;
    forall j: nat | start <= j < start + |s| && TurnAt(s, j) == a
      ensures j == m
    {
      if m <= j {
        TurnsAreApart(s, m, j);
      } else {
        TurnsAreApart(s, j, m);
      }
    }
  }
}

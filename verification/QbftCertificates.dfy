/**
 Round-change certificates are sorted so that they do not depend on the order in which the round
 changes are walked.  This says exactly when that works.
 */
module QbftCertificates {
  import opened Primitives
  import opened ByteOrder
  import opened Qbft

  function Entry(n: Noted): Signed {
    Signed(Some(n.rc), n.sig)
  }

  /** Round changes to `round` with the same bytes carry the same signature. */
  ghost predicate AreDistinguished(encode: RoundChange -> seq<byte>, changes: map<Address, Noted>, round: nat) {
    forall a, b :: a in Aiming(changes, round) && b in Aiming(changes, round) ==>
      encode(changes[a].rc) == encode(changes[b].rc) ==> Entry(changes[a]) == Entry(changes[b])
  }

  /** The certificate lists the round changes to `round`, sorted by their bytes. */
  ghost predicate IsSortedCertificate(
      encode: RoundChange -> seq<byte>, changes: map<Address, Noted>, round: nat, rcc: seq<Signed>, order: seq<Address>)
  {
    Certifies(changes, round, rcc, order) && IsSorted(Keys(encode, rcc))
  }

  /** The bytes noted for each sender listed. */
  function Bytes(encode: RoundChange -> seq<byte>, changes: map<Address, Noted>, order: seq<Address>): seq<seq<byte>>
    requires forall a :: a in order ==> a in changes
  {
    seq(|order|, i requires 0 <= i < |order| => assert order[i] in order; encode(changes[order[i]].rc))
  }

  lemma Dropped(s: seq<Address>, j: nat)
    requires j < |s|
    ensures multiset(s[..j] + s[j + 1..]) == multiset(s) - multiset{s[j]}
    ensures forall a :: a in s[..j] + s[j + 1..] ==> a in s
  {
    assert s == s[..j] + [s[j]] + s[j + 1..];
  }

  lemma {:induction false} BytesArePermuted(
      encode: RoundChange -> seq<byte>, changes: map<Address, Noted>, s: seq<Address>, t: seq<Address>)
    requires (forall a :: a in s ==> a in changes) && (forall a :: a in t ==> a in changes)
    requires multiset(s) == multiset(t)
    ensures multiset(Bytes(encode, changes, s)) == multiset(Bytes(encode, changes, t))
    decreases |s|
  {
    assert |s| == |multiset(s)| == |t|;
    if s != [] {
      assert s[0] in multiset(t);
      var j :| 0 <= j < |t| && t[j] == s[0];
      Dropped(s, 0);
      Dropped(t, j);
      BytesWithout(encode, changes, s, 0);
      BytesWithout(encode, changes, t, j);
      BytesArePermuted(encode, changes, s[..0] + s[1..], t[..j] + t[j + 1..]);
    }
  }

  lemma BytesWithout(encode: RoundChange -> seq<byte>, changes: map<Address, Noted>, s: seq<Address>, j: nat)
    requires (forall a :: a in s ==> a in changes) && j < |s|
    ensures
      var rest := s[..j] + s[j + 1..];
      && (forall a :: a in rest ==> a in changes)
      && s[j] in changes
      && multiset(Bytes(encode, changes, s)) ==
         multiset(Bytes(encode, changes, rest)) + multiset{encode(changes[s[j]].rc)}
  {
    var all, rest := Bytes(encode, changes, s), s[..j] + s[j + 1..];
    assert s[j] in s;
    assert Bytes(encode, changes, rest) == all[..j] + all[j + 1..];
    assert all == all[..j] + [all[j]] + all[j + 1..];
  }

  lemma {:induction false} EnumerationsArePermuted(s: seq<Address>, t: seq<Address>, all: set<Address>)
    requires Enumerates(s, all) && Enumerates(t, all)
    ensures multiset(s) == multiset(t)
  {
    forall a
      ensures multiset(s)[a] == multiset(t)[a]
    {
      ListedOnce(s, all, a);
      ListedOnce(t, all, a);
    }
  }

  lemma {:induction false} ListedOnce(s: seq<Address>, all: set<Address>, a: Address)
    requires Enumerates(s, all)
    ensures multiset(s)[a] == if a in all then 1 else 0
  {
    if s != [] {
      var n := |s| - 1;
      assert s == s[..n] + [s[n]] && s[n] in s;
      assert Enumerates(s[..n], all - {s[n]});
      ListedOnce(s[..n], all - {s[n]}, a);
    }
  }

  /** The certificate is the same for every walk of the map exactly if round changes with the same
      bytes carry the same signature. */
  lemma CertificateIsDeterminedIff(
      encode: RoundChange -> seq<byte>, changes: map<Address, Noted>, round: nat, rcc: seq<Signed>, order: seq<Address>)
    requires IsSortedCertificate(encode, changes, round, rcc, order)
    ensures AreDistinguished(encode, changes, round) <==>
      forall rcc', order' :: IsSortedCertificate(encode, changes, round, rcc', order') ==> rcc' == rcc
  {
    if AreDistinguished(encode, changes, round) {
      forall rcc', order' | IsSortedCertificate(encode, changes, round, rcc', order')
        ensures rcc' == rcc
      {
        SortedCertificatesAgree(encode, changes, round, rcc, order, rcc', order');
      }
    } else {
      var a, b :| a in Aiming(changes, round) && b in Aiming(changes, round) &&
        encode(changes[a].rc) == encode(changes[b].rc) && Entry(changes[a]) != Entry(changes[b]);
      var rcc', order' := SwapTied(encode, changes, round, rcc, order, a, b);
      assert IsSortedCertificate(encode, changes, round, rcc', order') && rcc' != rcc;
    }
  }

  lemma KeysAreBytes(
      encode: RoundChange -> seq<byte>, changes: map<Address, Noted>, round: nat, rcc: seq<Signed>, order: seq<Address>)
    requires Certifies(changes, round, rcc, order)
    ensures (forall a :: a in order ==> a in changes) && Keys(encode, rcc) == Bytes(encode, changes, order)
  {
  }

  lemma SortedCertificatesAgree(encode: RoundChange -> seq<byte>, changes: map<Address, Noted>, round: nat,
                                rcc: seq<Signed>, order: seq<Address>, rcc': seq<Signed>, order': seq<Address>)
    requires AreDistinguished(encode, changes, round)
    requires IsSortedCertificate(encode, changes, round, rcc, order)
    requires IsSortedCertificate(encode, changes, round, rcc', order')
    ensures rcc == rcc'
  {
    EnumerationsArePermuted(order, order', Aiming(changes, round));
    KeysAreBytes(encode, changes, round, rcc, order);
    KeysAreBytes(encode, changes, round, rcc', order');
    BytesArePermuted(encode, changes, order, order');
    SortedIsUnique(Keys(encode, rcc), Keys(encode, rcc'));
    forall i | 0 <= i < |rcc|
      ensures rcc[i] == rcc'[i]
    {
      assert Keys(encode, rcc)[i] == Keys(encode, rcc')[i];
      assert order[i] in order && order'[i] in order';
    }
  }

  lemma SwapEnumerates(order: seq<Address>, s: set<Address>, i: nat, j: nat)
    requires Enumerates(order, s) && i < |order| && j < |order|
    ensures Enumerates(order[i := order[j]][j := order[i]], s)
  {
    var swapped := order[i := order[j]][j := order[i]];
    forall k | 0 <= k < |order|
      ensures swapped[k] == order[if k == i then j else if k == j then i else k]
      ensures order[k] == swapped[if k == i then j else if k == j then i else k]
    {
    }
    forall a
      ensures a in swapped <==> a in s
    {
      if a in order {
        var k :| 0 <= k < |order| && order[k] == a;
        assert swapped[if k == i then j else if k == j then i else k] == a;
      }
    }
  }

  /** Two round changes with the same bytes and different signatures can trade places. */
  lemma SwapTied(encode: RoundChange -> seq<byte>, changes: map<Address, Noted>, round: nat,
                 rcc: seq<Signed>, order: seq<Address>, a: Address, b: Address)
    returns (rcc': seq<Signed>, order': seq<Address>)
    requires IsSortedCertificate(encode, changes, round, rcc, order)
    requires a in Aiming(changes, round) && b in Aiming(changes, round)
    requires encode(changes[a].rc) == encode(changes[b].rc) && Entry(changes[a]) != Entry(changes[b])
    ensures IsSortedCertificate(encode, changes, round, rcc', order') && rcc' != rcc
  {
    assert a in order && b in order;
    var i :| 0 <= i < |order| && order[i] == a;
    var j :| 0 <= j < |order| && order[j] == b;
    rcc', order' := rcc[i := rcc[j]][j := rcc[i]], order[i := b][j := a];
    SwapEnumerates(order, Aiming(changes, round), i, j);
    assert Keys(encode, rcc') == Keys(encode, rcc);
    assert rcc'[i] != rcc[i];
  }

  /** It does not work for two validators that time out before they have a proposal: their round
      changes are the same, and their signatures are not. */
  lemma UnpreparedAreTied(encode: RoundChange -> seq<byte>, changes: map<Address, Noted>, p: Params, p': Params,
                          s: State, s': State, a: Address, b: Address)
    requires p.sequence == p'.sequence && p.round == p'.round && s.phase == New == s'.phase
    requires a in changes && Timeout(p, s).decisions == [Broadcast(Change(changes[a].rc))]
    requires b in changes && Timeout(p', s').decisions == [Broadcast(Change(changes[b].rc))]
    requires changes[a].sig != changes[b].sig
    ensures !AreDistinguished(encode, changes, p.round + 1)
  {
    assert Broadcast(Change(changes[a].rc)) == Timeout(p, s).decisions[0] == Timeout(p', s').decisions[0];
    assert a in Aiming(changes, p.round + 1) && b in Aiming(changes, p.round + 1);
  }
}

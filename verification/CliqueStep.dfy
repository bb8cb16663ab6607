/**
 What one accepted header does to a Clique snapshot, said field by field in terms of the header and
 the old snapshot, and what that makes of the pending votes over whole runs.
 */
module CliqueStep {
  import opened Primitives
  import opened ByteOrder
  import opened Clique
  import opened CliqueVotes
  import opened CliqueRecents

  // ----- Acceptance

  /** A signer's entry blocks block `number` unless it is the one that leaves the window with it. */
  ghost predicate IsBlocked(s: Snapshot, signers: set<Address>, number: nat, a: Address) {
    exists b :: b in s.recents && s.recents[b] == a && b + |signers| / 2 + 1 != number
  }

  ghost predicate IsShort(e: Engine, h: Header) {
    h.number % e.epoch == 0 && |h.extra| < 32 + 65
  }

  /** Replay takes a header exactly if it is long enough for its number, its seal recovers to a
      signer in force, and no recent entry blocks that signer; the first of these that fails is
      the error. */
  lemma StepAcceptsIff(e: Engine, s: Snapshot, h: Header)
    ensures
      var signer, signers, r := e.SignerOf(h), SignersAt(e, s, h), Step(e, s, h);
      if IsShort(e, h) then r == Err(ShortExtra)
      else if signer == None then r == Err(BadSeal)
      else if signer.value !in signers then r == Err(Unauthorized)
      else if IsBlocked(s, signers, h.number, signer.value) then r == Err(RecentlySigned)
      else r.Ok?
  {
    if !IsShort(e, h) && e.SignerOf(h).Some? {
      var s1, a := AtBoundary(e, s, h).value, e.SignerOf(h).value;
      assert s1.signers == SignersAt(e, s, h) && s1.recents == s.recents;
      BlockedIffListed(s1, h.number, a);
    }
  }

  lemma BlockedIffListed(s: Snapshot, number: nat, a: Address)
    ensures a in Evict(s, number).recents.Values <==> IsBlocked(s, s.signers, number, a)
  {
    var left := Evict(s, number).recents;
    if IsBlocked(s, s.signers, number, a) {
      var b: nat :| b in s.recents && s.recents[b] == a && b + |s.signers| / 2 + 1 != number;
      assert b in left && left[b] == a;
    }
    if a in left.Values {
      var b :| b in left && left[b] == a;
      assert b in s.recents && s.recents[b] == a;
    }
  }

  // ----- Recent signers

  /** The header removes signer `a`. */
  ghost predicate Removes(e: Engine, s: Snapshot, h: Header, t: Snapshot, a: Address) {
    a in SignersAt(e, s, h) && a !in t.signers
  }

  /** Afterwards the window holds the header's signer at its number, and every older entry but the
      one that fell out of it and those of a signer the header removes. */
  lemma StepRecentsIff(e: Engine, s: Snapshot, h: Header, b: nat, a: Address)
    requires Step(e, s, h).Ok?
    ensures
      var t, n := Step(e, s, h).value, |SignersAt(e, s, h)|;
      (b in t.recents && t.recents[b] == a) <==>
        && (if b == h.number then e.SignerOf(h) == Some(a)
            else b in s.recents && s.recents[b] == a && b + n / 2 + 1 != h.number)
        && !Removes(e, s, h, t, a)
  {
    var s1, s2 := StepParts(e, s, h);
    AdmitFacts(e, s1, h, s2);
    VoteRecentsIff(e, s2, h, e.SignerOf(h).value, b, a);
  }

  lemma VoteRecentsIff(e: Engine, s: Snapshot, h: Header, signer: Address, b: nat, a: Address)
    ensures
      var t := ProcessVote(e, s, h, signer);
      (b in t.recents && t.recents[b] == a) <==>
        b in s.recents && s.recents[b] == a && !(a in s.signers && a !in t.signers)
  {
    var d := Discard(s, signer, h.coinbase);
    assert d.signers == s.signers && d.recents == s.recents;
  }

  // ----- Pending votes after one header

  /** The vote a header casts: between checkpoints, on a named address, in favour or against, and
      only if it asks for a change. */
  ghost predicate Casts(e: Engine, s: Snapshot, h: Header, v: Vote) {
    && h.number % e.epoch != 0 && h.coinbase != 0
    && (h.nonce == NONCE_AUTH || h.nonce == NONCE_DROP)
    && e.SignerOf(h) == Some(v.signer) && v.block == h.number
    && v.address == h.coinbase && v.authorize == (h.nonce == NONCE_AUTH)
    && (v.authorize <==> v.address !in s.signers)
  }

  /** The header takes back the signer's earlier vote on the same address. */
  ghost predicate Revokes(e: Engine, h: Header, v: Vote) {
    && h.number % e.epoch != 0 && h.coinbase != 0
    && (h.nonce == NONCE_AUTH || h.nonce == NONCE_DROP)
    && e.SignerOf(h) == Some(v.signer) && v.address == h.coinbase
  }

  /** The header settles the vote's address, or removes its voter. */
  ghost predicate Settles(s: Snapshot, h: Header, t: Snapshot, v: Vote) {
    && t.signers != s.signers
    && (v.address == h.coinbase || v.signer !in t.signers)
  }

  /** A step is a vote on a snapshot with the signers in force and, but for an epoch reset, the old
      votes. */
  lemma StepIsVote(e: Engine, s: Snapshot, h: Header) returns (s2: Snapshot)
    requires Step(e, s, h).Ok?
    ensures s2.signers == SignersAt(e, s, h) && e.SignerOf(h).Some? && e.SignerOf(h).value in s2.signers
    ensures e.IsEpoch(h.number) ==> s2.votes == [] && s2.tally == map[]
    ensures !e.IsEpoch(h.number) ==> s2.votes == s.votes && s2.tally == s.tally
    ensures Step(e, s, h).value == ProcessVote(e, s2, h, e.SignerOf(h).value).(number := h.number, hash := HashOf(h))
  {
    var s1 := AtBoundary(e, s, h).value;
    s2 := Admit(e, Evict(s1, h.number), h).value;
    assert s2.votes == s1.votes && s2.tally == s1.tally && s2.signers == s1.signers;
  }

  lemma ProcessMember(e: Engine, s: Snapshot, h: Header, v: Vote)
    requires Booked(s) && e.SignerOf(h).Some? && e.SignerOf(h).value in s.signers && !e.IsEpoch(h.number)
    ensures
      var t := ProcessVote(e, s, h, e.SignerOf(h).value);
      v in t.votes <==> ((v in s.votes && !Revokes(e, h, v)) || Casts(e, s, h, v)) && !Settles(s, h, t, v)
  {
    var signer := e.SignerOf(h).value;
    if IsVote(e, h) {
      var d := Discard(s, signer, h.coinbase);
      DiscardKeepsBooks(s, signer, h.coinbase);
      DiscardMember(s, signer, h.coinbase, v);
      RegisterMember(d, VoteIn(h, signer), v);
      assert d.signers == s.signers;
    }
  }

  /** After an accepted header between checkpoints, the pending votes are the old ones it does not
      revoke and the one it casts, but for those it settles; after a checkpoint there are none. */
  lemma StepVotesIff(e: Engine, s: Snapshot, h: Header, v: Vote)
    requires Booked(s) && Step(e, s, h).Ok?
    ensures v in Step(e, s, h).value.votes <==>
      && h.number % e.epoch != 0
      && ((v in s.votes && !Revokes(e, h, v)) || Casts(e, s, h, v))
      && !Settles(s, h, Step(e, s, h).value, v)
  {
    var s2 := StepIsVote(e, s, h);
    if !e.IsEpoch(h.number) {
      assert Booked(s2);
      ProcessMember(e, s2, h, v);
    }
  }

  lemma DiscardMember(s: Snapshot, signer: Address, c: Address, v: Vote)
    requires DistinctPairs(s.votes)
    ensures v in Discard(s, signer, c).votes <==> v in s.votes && !(v.signer == signer && v.address == c)
  {
    var i := FirstVote(s.votes, signer, c);
    if i < |s.votes| {
      assert s.votes == s.votes[..i] + [s.votes[i]] + s.votes[i + 1..];
    }
  }

  lemma RegisterMember(s: Snapshot, own: Vote, v: Vote)
    requires VotersIn(s.votes, s.signers) && own.signer in s.signers
    ensures
      var t := Register(s, own);
      v in t.votes <==>
        && (v in s.votes || (v == own && (own.authorize <==> own.address !in s.signers)))
        && !(t.signers != s.signers && (v.address == own.address || v.signer !in t.signers))
  {
    if ValidVote(s, own.address, own.authorize) {
      var t := s.(votes := s.votes + [own], tally := Cast(s.tally, own.address, own.authorize));
      ResolveMember(t, own.address, own.authorize, v);
    }
  }

  lemma ResolveMember(s: Snapshot, c: Address, authorize: bool, v: Vote)
    ensures v in Resolve(s, c, authorize).votes <==> v in s.votes && v.address != c && (authorize || v.signer != c)
  {
    KeepMember(s.votes, NotBy(c), v);
    KeepMember(if authorize then s.votes else Keep(s.votes, NotBy(c)), NotFor(c), v);
  }

  // ----- Pending votes over a run

  /** Header `k` of the run casts vote `v` without settling it at once. */
  ghost predicate CastAt(e: Engine, headers: seq<Header>, states: seq<Snapshot>, k: nat, v: Vote)
    requires |states| == |headers| + 1
  {
    && k < |headers|
    && Casts(e, states[k], headers[k], v) && !Settles(states[k], headers[k], states[k + 1], v)
  }

  /** Header `k` of the run ends vote `v`: the epoch ends, the voter votes on the address again, the
      address is settled, or the voter is removed. */
  ghost predicate EndedAt(e: Engine, headers: seq<Header>, states: seq<Snapshot>, k: nat, v: Vote)
    requires |states| == |headers| + 1 && k < |headers|
  {
    || headers[k].number % e.epoch == 0
    || Revokes(e, headers[k], v)
    || Settles(states[k], headers[k], states[k + 1], v)
  }

  lemma {:induction false} RunIsBooked(e: Engine, headers: seq<Header>, states: seq<Snapshot>, k: nat)
    requires IsRun(e, headers, states) && Booked(states[0]) && k <= |headers|
    ensures Booked(states[k])
  {
    if k > 0 {
      RunIsBooked(e, headers, states, k - 1);
      assert Leads(e, headers, states, k - 1);
      StepKeepsBooks(e, states[k - 1], headers[k - 1]);
    }
  }

  /** Vote `v` was cast by header `j`, and no header after it, before the `k`-th, ended it. */
  ghost predicate Lasts(e: Engine, headers: seq<Header>, states: seq<Snapshot>, j: nat, k: nat, v: Vote)
    requires |states| == |headers| + 1 && k <= |headers|
  {
    && j < k && CastAt(e, headers, states, j, v)
    && forall i :: j < i < k ==> !EndedAt(e, headers, states, i, v)
  }

  lemma PendingNext(e: Engine, headers: seq<Header>, states: seq<Snapshot>, n: nat, v: Vote)
    requires IsRun(e, headers, states) && Booked(states[0]) && n < |headers|
    ensures v in states[n + 1].votes <==>
      CastAt(e, headers, states, n, v) || (v in states[n].votes && !EndedAt(e, headers, states, n, v))
  {
    RunIsBooked(e, headers, states, n);
    assert Leads(e, headers, states, n);
    StepVotesIff(e, states[n], headers[n], v);
  }

  lemma LastsNext(e: Engine, headers: seq<Header>, states: seq<Snapshot>, n: nat, k: nat, v: Vote)
    requires |states| == |headers| + 1 && n < |headers| && k == n + 1
    ensures (exists j :: Lasts(e, headers, states, j, k, v)) <==>
      || CastAt(e, headers, states, n, v)
      || ((exists j :: Lasts(e, headers, states, j, n, v)) && !EndedAt(e, headers, states, n, v))
  {
    if CastAt(e, headers, states, n, v) {
      assert Lasts(e, headers, states, n, k, v);
    }
    forall j | Lasts(e, headers, states, j, n, v)
      ensures !EndedAt(e, headers, states, n, v) ==> Lasts(e, headers, states, j, k, v)
    {
    }
    forall j | Lasts(e, headers, states, j, k, v)
      ensures j == n || (Lasts(e, headers, states, j, n, v) && !EndedAt(e, headers, states, n, v))
    {
    }
  }

  /** In any run from a snapshot without votes, a vote is pending exactly if some header cast it and
      none since has ended it. */
  lemma {:induction false} PendingIff(e: Engine, headers: seq<Header>, states: seq<Snapshot>, k: nat, v: Vote)
    requires IsRun(e, headers, states) && Booked(states[0]) && states[0].votes == [] && k <= |headers|
    ensures v in states[k].votes <==> exists j :: Lasts(e, headers, states, j, k, v)
  {
    if k > 0 {
      PendingIff(e, headers, states, k - 1, v);
      PendingNext(e, headers, states, k - 1, v);
      LastsNext(e, headers, states, k - 1, k, v);
    }
  }

  /** The votes are listed in the order their blocks came. */
  ghost predicate InOrder(votes: seq<Vote>, number: nat) {
    && (forall i :: 0 <= i < |votes| ==> votes[i].block <= number)
    && (forall i, j :: 0 <= i < j < |votes| ==> votes[i].block < votes[j].block)
  }

  lemma {:induction false} KeepInOrder(votes: seq<Vote>, p: Vote -> bool, number: nat)
    requires InOrder(votes, number)
    ensures InOrder(Keep(votes, p), number)
  {
    if votes != [] {
      var n := |votes| - 1;
      KeepInOrder(votes[..n], p, number);
      var kept := Keep(votes[..n], p);
      forall i | 0 <= i < |kept|
        ensures kept[i].block < votes[n].block
      {
        KeepMember(votes[..n], p, kept[i]);
      }
    }
  }

  lemma VoteKeepsOrder(e: Engine, s: Snapshot, h: Header, signer: Address, number: nat)
    requires InOrder(s.votes, number) && h.number == number + 1
    ensures InOrder(ProcessVote(e, s, h, signer).votes, h.number)
  {
    if IsVote(e, h) {
      var d := Discard(s, signer, h.coinbase);
      DiscardKeepsOrder(s, signer, h.coinbase, number);
      RegisterKeepsOrder(d, VoteIn(h, signer), number);
    }
  }

  lemma DiscardKeepsOrder(s: Snapshot, signer: Address, c: Address, number: nat)
    requires InOrder(s.votes, number)
    ensures InOrder(Discard(s, signer, c).votes, number)
  {
  }

  lemma RegisterKeepsOrder(s: Snapshot, own: Vote, number: nat)
    requires InOrder(s.votes, number) && own.block == number + 1
    ensures InOrder(Register(s, own).votes, number + 1)
  {
    var votes := s.votes + [own];
    assert InOrder(votes, number + 1);
    KeepInOrder(votes, NotBy(own.address), number + 1);
    KeepInOrder(if own.authorize then votes else Keep(votes, NotBy(own.address)), NotFor(own.address), number + 1);
  }

  /** So in every run from a snapshot without votes the list is in block order, which with PendingIff
      determines it. */
  lemma {:induction false} RunKeepsOrder(e: Engine, headers: seq<Header>, states: seq<Snapshot>, k: nat)
    requires IsRun(e, headers, states) && states[0].votes == [] && k <= |headers|
    ensures InOrder(states[k].votes, states[k].number)
  {
    if k > 0 {
      var n := k - 1;
      RunKeepsOrder(e, headers, states, n);
      NumberInRun(e, headers, states, n);
      NumberInRun(e, headers, states, k);
      assert Leads(e, headers, states, n);
      var s2 := StepIsVote(e, states[n], headers[n]);
      VoteKeepsOrder(e, s2, headers[n], e.SignerOf(headers[n]).value, states[n].number);
    }
  }

  /** Two vote lists in block order with the same votes are the same list. */
  lemma {:induction false} OrderIsUnique(s: seq<Vote>, t: seq<Vote>, n: nat)
    requires InOrder(s, n) && InOrder(t, n) && forall v :: v in s <==> v in t
    ensures s == t
  {
    assert s != [] ==> s[|s| - 1] in t;
    assert t != [] ==> t[|t| - 1] in s;
    if s != [] && t != [] {
      var i, j := |s| - 1, |t| - 1;
      assert s[i] == t[j];
      forall v
        ensures v in s[..i] <==> v in t[..j]
      {
        assert v in s[..i] ==> v in t && v != t[j];
        assert v in t[..j] ==> v in s && v != s[i];
      }
      OrderIsUnique(s[..i], t[..j], n);
    }
  }

  // ----- Signer lists in headers

  /** The `i`-th 20 bytes of the data, or what is left of it. */
  function Chunk(data: seq<byte>, i: nat): seq<byte>
    requires 20 * i <= |data|
  {
    var rest := data[20 * i..];
    if |rest| < 20 then rest else rest[..20]
  }

  /** Address `a` is the `i`-th chunk of the data, filled up with zeros if it is cut short. */
  ghost predicate IsListed(data: seq<byte>, i: nat, a: Address) {
    20 * i < |data| && a == AddressIn(Chunk(data, i))
  }

  lemma ListedInRest(data: seq<byte>, i: nat, a: Address)
    requires |data| >= 20
    ensures IsListed(data[20..], i, a) <==> IsListed(data, i + 1, a)
  {
    if 20 * i < |data| - 20 {
      assert data[20..][20 * i..] == data[20 * (i + 1)..];
    }
  }

  lemma ListedFirst(data: seq<byte>, a: Address)
    requires data != []
    ensures IsListed(data, 0, a) <==> a == AddressIn(data[..FirstChunk(data)])
  {
    assert data[20 * 0..] == data;
    assert Chunk(data, 0) == data[..FirstChunk(data)];
  }

  /** A checkpoint's signers are exactly the addresses packed one after another. */
  lemma {:induction false} SignersInIff(data: seq<byte>, a: Address)
    ensures a in SignersIn(data) <==> exists i :: IsListed(data, i, a)
    decreases |data|
  {
    if data != [] {
      SignersInIff(data[FirstChunk(data)..], a);
      ListedIff(data, a);
    }
  }

  lemma ListedIff(data: seq<byte>, a: Address)
    requires data != []
    ensures (exists i :: IsListed(data, i, a)) <==>
      a == AddressIn(data[..FirstChunk(data)]) || exists i :: IsListed(data[FirstChunk(data)..], i, a)
  {
    ListedFirst(data, a);
    if |data| >= 20 {
      forall i: nat
        ensures IsListed(data[20..], i, a) ==> IsListed(data, i + 1, a)
      {
        ListedInRest(data, i, a);
      }
      forall i: nat | i > 0
        ensures IsListed(data, i, a) ==> IsListed(data[20..], i - 1, a)
      {
        ListedInRest(data, i - 1, a);
      }
    }
  }

  lemma {:induction false} FirstByteCounts(x: seq<byte>)
    requires x != []
    ensures BigEndian(x) == x[0] * Pow256(|x| - 1) + BigEndian(x[1..])
  {
    var n := |x| - 1;
    if n > 0 {
      FirstByteCounts(x[..n]);
      assert x[..n][1..] == x[1..][..n - 1];
      assert x[..n][1..] == x[1..n] && x[1..][..n - 1] == x[1..n];
      Shifted(x[0] as int, Pow256(n - 1), BigEndian(x[1..n]));
    }
  }

  lemma Shifted(first: nat, p: nat, rest: nat)
    ensures 256 * (first * p + rest) == first * (256 * p) + 256 * rest
  {
    assert first * (256 * p) == 256 * (first * p);
  }

  /** The numbers addresses stand for are ordered as their bytes are. */
  lemma {:induction false} OrderIsByteOrder(x: seq<byte>, y: seq<byte>)
    requires |x| == |y|
    ensures BigEndian(x) < BigEndian(y) <==> Less(x, y)
  {
    if x != [] {
      FirstByteCounts(x);
      FirstByteCounts(y);
      BigEndianBound(x[1..]);
      BigEndianBound(y[1..]);
      OrderIsByteOrder(x[1..], y[1..]);
      DigitsDecide(x[0], BigEndian(x[1..]), y[0], BigEndian(y[1..]), Pow256(|x| - 1));
    }
  }

  lemma Gap(a: nat, b: nat, p: nat)
    requires a < b
    ensures a * p + p <= b * p
  {
    var d := b - a - 1;
    assert b * p == (a + 1) * p + d * p && (a + 1) * p == a * p + p && d * p >= 0;
  }

  lemma DigitsDecide(a: nat, r: nat, b: nat, s: nat, p: nat)
    requires r < p && s < p
    ensures a * p + r < b * p + s <==> a < b || (a == b && r < s)
  {
    if a < b {
      Gap(a, b, p);
    } else if a > b {
      Gap(b, a, p);
    }
  }
}

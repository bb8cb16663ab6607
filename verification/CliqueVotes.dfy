/**
 Vote bookkeeping and the majority rule of the Clique snapshot.

 The incremental tally always equals a recount of the pending votes, and the signer set only
 changes when more than half of the signers have asked for it in the current epoch.
 */
module CliqueVotes {
  import opened Primitives
  import opened Clique

  // ----- Filtering a list of votes

  lemma {:induction false} KeepConcat(a: seq<Vote>, b: seq<Vote>, p: Vote -> bool)
    ensures Keep(a + b, p) == Keep(a, p) + Keep(b, p)
  {
    if b == [] {
      assert a + b == a;
    } else {
      var n := |b| - 1;
      assert (a + b)[..|a| + n] == a + b[..n];
      KeepConcat(a, b[..n], p);
    }
  }

  lemma {:induction false} KeepMember(votes: seq<Vote>, p: Vote -> bool, v: Vote)
    ensures v in Keep(votes, p) <==> v in votes && p(v)
  {
    if votes != [] {
      var n := |votes| - 1;
      KeepMember(votes[..n], p, v);
      assert votes == votes[..n] + [votes[n]];
    }
  }

  ghost predicate DistinctPairs(votes: seq<Vote>) {
    forall i, j :: 0 <= i < j < |votes| ==>
      votes[i].signer != votes[j].signer || votes[i].address != votes[j].address
  }

  lemma {:induction false} KeepDistinct(votes: seq<Vote>, p: Vote -> bool)
    requires DistinctPairs(votes)
    ensures DistinctPairs(Keep(votes, p))
  {
    if votes != [] {
      var n := |votes| - 1;
      KeepDistinct(votes[..n], p);
      var kept := Keep(votes[..n], p);
      forall i | 0 <= i < |kept|
        ensures kept[i].signer != votes[n].signer || kept[i].address != votes[n].address
      {
        KeepMember(votes[..n], p, kept[i]);
      }
    }
  }

  lemma {:induction false} KeepForAfterNotFor(votes: seq<Vote>, c: Address, a: Address)
    ensures Keep(Keep(votes, NotFor(c)), For(a)) == if a == c then [] else Keep(votes, For(a))
  {
    if votes != [] {
      var n := |votes| - 1;
      KeepForAfterNotFor(votes[..n], c, a);
      var last := if NotFor(c)(votes[n]) then [votes[n]] else [];
      KeepConcat(Keep(votes[..n], NotFor(c)), last, For(a));
      assert last != [] ==> last[..0] == [];
    }
  }

  // ----- The tally recounts the votes

  function Count(votes: seq<Vote>, a: Address): nat {
    |Keep(votes, For(a))|
  }

  ghost predicate Exact(votes: seq<Vote>, tally: TallyMap, signers: set<Address>) {
    forall a: Address ::
      if Count(votes, a) == 0 then a !in tally
      else a in tally && tally[a] == Tally(a !in signers, Count(votes, a))
  }

  ghost predicate Directed(votes: seq<Vote>, signers: set<Address>) {
    forall v :: v in votes ==> v.authorize == (v.address !in signers)
  }

  ghost predicate VotersIn(votes: seq<Vote>, signers: set<Address>) {
    forall v :: v in votes ==> v.signer in signers
  }

  /** The bookkeeping invariant. */
  ghost predicate Booked(s: Snapshot) {
    && DistinctPairs(s.votes)
    && VotersIn(s.votes, s.signers)
    && Directed(s.votes, s.signers)
    && Exact(s.votes, s.tally, s.signers)
  }

  lemma CountSingle(v: Vote, a: Address)
    ensures Count([v], a) == if v.address == a then 1 else 0
  {
    assert Keep([v][..0], For(a)) == [];
  }

  lemma CountWithoutOne(before: seq<Vote>, v: Vote, after: seq<Vote>, a: Address)
    ensures Count(before + [v] + after, a) ==
      Count(before + after, a) + if v.address == a then 1 else 0
  {
    KeepConcat(before + [v], after, For(a));
    KeepConcat(before, [v], For(a));
    KeepConcat(before, after, For(a));
    CountSingle(v, a);
  }

  lemma UncastKeepsExact(
      before: seq<Vote>, v: Vote, after: seq<Vote>, tally: TallyMap, signers: set<Address>)
    requires Exact(before + [v] + after, tally, signers) && v.authorize == (v.address !in signers)
    ensures Exact(before + after, Uncast(tally, v.address, v.authorize), signers)
  {
    forall a: Address
      ensures Count(before + [v] + after, a) ==
        Count(before + after, a) + if v.address == a then 1 else 0
    {
      CountWithoutOne(before, v, after, a);
    }
    assert Count(before + [v] + after, v.address) > 0;
  }

  lemma CastKeepsExact(votes: seq<Vote>, tally: TallyMap, signers: set<Address>, v: Vote)
    requires Exact(votes, tally, signers) && v.authorize == (v.address !in signers)
    ensures Exact(votes + [v], Cast(tally, v.address, v.authorize), signers)
  {
    forall a: Address
      ensures Count(votes + [v], a) == Count(votes, a) + if v.address == a then 1 else 0
    {
      KeepConcat(votes, [v], For(a));
      CountSingle(v, a);
    }
    assert Count(votes, v.address) >= 0;
  }

  lemma SplitAt(before: seq<Vote>, votes: seq<Vote>, m: nat)
    requires m < |votes|
    ensures before + votes[m..] == before + [votes[m]] + votes[m + 1..]
  {
  }

  lemma UncastNextKeepsExact(
      before: seq<Vote>, v: Vote, after: seq<Vote>, t: TallyMap, signers: set<Address>, who: Address)
    requires Exact(before + [v] + after, t, signers) && v.authorize == (v.address !in signers)
    ensures Exact((before + if NotBy(who)(v) then [v] else []) + after, UncastIfBy(t, v, who), signers)
  {
    if v.signer == who {
      UncastKeepsExact(before, v, after, t, signers);
      assert before + [] == before;
    }
  }

  /** Taking back a removed signer's votes one by one keeps the tally exact at every step. */
  lemma {:induction false} UncastByKeepsExact(
      votes: seq<Vote>, tally: TallyMap, signers: set<Address>, who: Address, n: nat)
    requires n <= |votes| && Exact(votes, tally, signers) && Directed(votes, signers)
    ensures Exact(Keep(votes[..n], NotBy(who)) + votes[n..], UncastBy(tally, votes[..n], who), signers)
  {
    if n == 0 {
      assert Keep(votes[..0], NotBy(who)) + votes[0..] == votes;
    } else {
      var m := n - 1;
      UncastByKeepsExact(votes, tally, signers, who, m);
      var before := Keep(votes[..m], NotBy(who));
      assert votes[m] in votes;
      SplitAt(before, votes, m);
      UncastNextKeepsExact(before, votes[m], votes[n..], UncastBy(tally, votes[..m], who), signers, who);
      KeepNext(votes, NotBy(who), m);
      UncastByNext(tally, votes, who, m);
    }
  }

  lemma DropCandidateKeepsExact(
      votes: seq<Vote>, tally: TallyMap, signers: set<Address>, signers': set<Address>, c: Address)
    requires Exact(votes, tally, signers)
    requires forall a: Address :: a != c ==> (a in signers <==> a in signers')
    ensures Exact(Keep(votes, NotFor(c)), tally - {c}, signers')
  {
    forall a: Address
      ensures Count(Keep(votes, NotFor(c)), a) == if a == c then 0 else Count(votes, a)
    {
      KeepForAfterNotFor(votes, c, a);
    }
  }

  // ----- Each part of a step keeps the books

  lemma WithoutOneStaysDistinct(votes: seq<Vote>, i: nat)
    requires i < |votes| && DistinctPairs(votes)
    ensures votes == votes[..i] + [votes[i]] + votes[i + 1..]
    ensures DistinctPairs(votes[..i] + votes[i + 1..])
    ensures forall v :: v in votes[..i] + votes[i + 1..] ==>
      v in votes && !(v.signer == votes[i].signer && v.address == votes[i].address)
  {
    var r := votes[..i] + votes[i + 1..];
    assert forall k :: 0 <= k < |r| ==> r[k] == votes[if k < i then k else k + 1];
  }

  lemma AppendStaysDistinct(votes: seq<Vote>, v: Vote)
    requires DistinctPairs(votes)
    requires forall w :: w in votes ==> !(w.signer == v.signer && w.address == v.address)
    ensures DistinctPairs(votes + [v])
  {
  }

  lemma DiscardKeepsBooks(s: Snapshot, signer: Address, candidate: Address)
    requires Booked(s)
    ensures Booked(Discard(s, signer, candidate))
    ensures forall v :: v in Discard(s, signer, candidate).votes ==>
      v in s.votes && !(v.signer == signer && v.address == candidate)
  {
    var i := FirstVote(s.votes, signer, candidate);
    if i < |s.votes| {
      WithoutOneStaysDistinct(s.votes, i);
      UncastKeepsExact(s.votes[..i], s.votes[i], s.votes[i + 1..], s.tally, s.signers);
    }
  }

  lemma ResolveKeepsBooks(s: Snapshot, c: Address, authorize: bool)
    requires Booked(s)
    ensures Booked(Resolve(s, c, authorize))
    ensures forall v :: v in Resolve(s, c, authorize).votes ==> v in s.votes
  {
    var votes, tally := s.votes, s.tally;
    if !authorize {
      UncastByKeepsExact(s.votes, s.tally, s.signers, c, |s.votes|);
      assert s.votes[..|s.votes|] == s.votes;
      votes, tally := Keep(s.votes, NotBy(c)), UncastBy(s.tally, s.votes, c);
      assert votes + s.votes[|s.votes|..] == votes;
      KeepDistinct(s.votes, NotBy(c));
    }
    var r := Resolve(s, c, authorize);
    assert r.votes == Keep(votes, NotFor(c)) && r.tally == tally - {c};
    DropCandidateKeepsExact(votes, tally, s.signers, r.signers, c);
    KeepDistinct(votes, NotFor(c));
    forall v | v in r.votes
      ensures v in s.votes && v.address != c && (!authorize ==> v.signer != c)
    {
      KeepMember(votes, NotFor(c), v);
      KeepMember(s.votes, NotBy(c), v);
    }
  }

  lemma RegisterKeepsBooks(s: Snapshot, v: Vote)
    requires Booked(s) && v.signer in s.signers
    requires forall w :: w in s.votes ==> !(w.signer == v.signer && w.address == v.address)
    ensures Booked(Register(s, v))
    ensures forall w :: w in Register(s, v).votes ==> w in s.votes || w == v
  {
    if ValidVote(s, v.address, v.authorize) {
      CastKeepsExact(s.votes, s.tally, s.signers, v);
      AppendStaysDistinct(s.votes, v);
      var t := s.(votes := s.votes + [v], tally := Cast(s.tally, v.address, v.authorize));
      assert Booked(t);
      ResolveKeepsBooks(t, v.address, v.authorize);
    }
  }

  /** One accepted header keeps the books, and adds no pending vote but its own. */
  lemma StepKeepsBooks(e: Engine, s: Snapshot, h: Header)
    requires Booked(s) && Step(e, s, h).Ok?
    ensures Booked(Step(e, s, h).value)
    ensures forall v :: v in Step(e, s, h).value.votes ==>
      || (v in s.votes && !e.IsEpoch(h.number))
      || (IsVote(e, h) && e.SignerOf(h) == Some(v.signer) && v == VoteIn(h, v.signer))
  {
    var s1 := AtBoundary(e, s, h).value;
    var s2 := Admit(e, Evict(s1, h.number), h).value;
    var signer := e.SignerOf(h).value;
    assert Booked(s2) by {
      assert s2.votes == s1.votes && s2.tally == s1.tally && s2.signers == s1.signers;
    }
    if IsVote(e, h) {
      DiscardKeepsBooks(s2, signer, h.coinbase);
      RegisterKeepsBooks(Discard(s2, signer, h.coinbase), VoteIn(h, signer));
    }
  }

  /** Every snapshot reached by an accepted run is booked, whatever votes, revocations,
      removals and epoch resets the headers carry. */
  lemma {:induction false} ReplayKeepsBooks(e: Engine, s: Snapshot, headers: seq<Header>)
    requires Booked(s) && Replay(e, s, headers).Ok?
    ensures Booked(Replay(e, s, headers).value)
  {
    if headers != [] {
      var n := |headers| - 1;
      ReplayKeepsBooks(e, s, headers[..n]);
      StepKeepsBooks(e, Replay(e, s, headers[..n]).value, headers[n]);
    }
  }

  lemma CheckpointIsBooked(h: Header)
    requires CheckpointSnapshot(h).Ok?
    ensures Booked(CheckpointSnapshot(h).value)
  {
    assert forall a: Address :: Count([], a) == 0;
  }

  // ----- The majority rule

  /** The signers with a pending vote on `c`. */
  function Voters(votes: seq<Vote>, c: Address): set<Address> {
    set v | v in votes && v.address == c :: v.signer
  }

  lemma VotersAppend(votes: seq<Vote>, v: Vote, c: Address)
    ensures Voters(votes + [v], c) == Voters(votes, c) + if v.address == c then {v.signer} else {}
  {
  }

  lemma {:induction false} VotersCounted(votes: seq<Vote>, c: Address)
    requires DistinctPairs(votes)
    ensures |Voters(votes, c)| == Count(votes, c)
  {
    if votes == [] {
      assert Voters(votes, c) == {};
    } else {
      var n := |votes| - 1;
      VotersCounted(votes[..n], c);
      VotersAppend(votes[..n], votes[n], c);
      assert votes == votes[..n] + [votes[n]];
      assert votes[n].address == c ==> votes[n].signer !in Voters(votes[..n], c);
    }
  }

  lemma {:induction false} DiscardOnlyForgetsOne(s: Snapshot, signer: Address, c: Address)
    ensures Voters(Discard(s, signer, c).votes, c) + {signer} == Voters(s.votes, c) + {signer}
    ensures Discard(s, signer, c).signers == s.signers
  {
    var i := FirstVote(s.votes, signer, c);
    if i < |s.votes| {
      var r := s.votes[..i] + s.votes[i + 1..];
      assert s.votes == s.votes[..i] + [s.votes[i]] + s.votes[i + 1..];
      assert forall v :: v in s.votes <==> v in r || v == s.votes[i];
    }
  }

  lemma TallyCountsVoters(s: Snapshot, v: Vote)
    requires Booked(s) && ValidVote(s, v.address, v.authorize)
    requires forall w :: w in s.votes ==> !(w.signer == v.signer && w.address == v.address)
    ensures Cast(s.tally, v.address, v.authorize)[v.address].votes
      == |Voters(s.votes, v.address) + {v.signer}|
  {
    AppendStaysDistinct(s.votes, v);
    VotersCounted(s.votes + [v], v.address);
    VotersAppend(s.votes, v, v.address);
    KeepConcat(s.votes, [v], For(v.address));
    CountSingle(v, v.address);
    assert Count(s.votes, v.address) >= 0;
  }

  lemma RegisterChangesSignersIff(s: Snapshot, v: Vote)
    requires Booked(s) && v.signer in s.signers
    requires forall w :: w in s.votes ==> !(w.signer == v.signer && w.address == v.address)
    ensures Register(s, v).signers ==
      if ValidVote(s, v.address, v.authorize) && 2 * |Voters(s.votes, v.address) + {v.signer}| > |s.signers|
      then (if v.authorize then s.signers + {v.address} else s.signers - {v.address})
      else s.signers
  {
    if ValidVote(s, v.address, v.authorize) {
      TallyCountsVoters(s, v);
    }
  }

  /** A block between checkpoints changes the signer set exactly when it carries a meaningful
      vote and the distinct signers behind that vote, the block's own signer included, are
      more than half of the signers; it then changes the voted address and no other. */
  lemma StepChangesSignersIff(e: Engine, s: Snapshot, h: Header)
    requires Booked(s) && Step(e, s, h).Ok? && !e.IsEpoch(h.number)
    ensures Step(e, s, h).value.signers ==
      if IsVote(e, h) && ValidVote(s, h.coinbase, h.nonce == NONCE_AUTH)
         && 2 * |Voters(s.votes, h.coinbase) + {e.SignerOf(h).value}| > |s.signers|
      then (if h.nonce == NONCE_AUTH then s.signers + {h.coinbase} else s.signers - {h.coinbase})
      else s.signers
  {
    var s2 := Admit(e, Evict(s, h.number), h).value;
    assert s2.votes == s.votes && s2.tally == s.tally && s2.signers == s.signers;
    if IsVote(e, h) {
      var signer := e.SignerOf(h).value;
      DiscardKeepsBooks(s2, signer, h.coinbase);
      DiscardOnlyForgetsOne(s2, signer, h.coinbase);
      RegisterChangesSignersIff(Discard(s2, signer, h.coinbase), VoteIn(h, signer));
    }
  }

  /** Header `k` of the run is signed by `voter`, votes `authorize` on `candidate`, and lies in
      the same epoch as the end of the run. */
  ghost predicate VotedInEpoch(e: Engine, headers: seq<Header>, k: nat, voter: Address,
                               candidate: Address, authorize: bool) {
    && k < |headers|
    && IsVote(e, headers[k])
    && e.SignerOf(headers[k]) == Some(voter)
    && headers[k].coinbase == candidate
    && (headers[k].nonce == NONCE_AUTH) == authorize
    && headers[k].number / e.epoch == headers[|headers| - 1].number / e.epoch
  }

  ghost predicate Backed(e: Engine, first: nat, headers: seq<Header>, v: Vote) {
    && first <= v.block
    && VotedInEpoch(e, headers, v.block - first, v.signer, v.address, v.authorize)
  }

  lemma SameEpoch(n: nat, epoch: pos)
    requires (n + 1) % epoch != 0
    ensures (n + 1) / epoch == n / epoch
  {
    var q, r := n / epoch, n % epoch;
    assert n + 1 == q * epoch + (r + 1);
    if r + 1 == epoch {
      QuotientIsUnique(n + 1, epoch, q + 1, 0);
    } else {
      QuotientIsUnique(n + 1, epoch, q, r + 1);
    }
  }

  lemma BackedCarries(e: Engine, first: nat, headers: seq<Header>, h: Header, v: Vote)
    requires Backed(e, first, headers, v)
    requires h.number == headers[|headers| - 1].number + 1 && !e.IsEpoch(h.number)
    ensures Backed(e, first, headers + [h], v)
  {
    SameEpoch(headers[|headers| - 1].number, e.epoch);
    assert (headers + [h])[v.block - first] == headers[v.block - first];
  }

  lemma NextVotesAreBacked(
      e: Engine, first: nat, headers: seq<Header>, votes: seq<Vote>, h: Header, votes': seq<Vote>)
    requires h.number == first + |headers|
    requires headers != [] ==> headers[|headers| - 1].number + 1 == h.number
    requires forall v :: v in votes ==> Backed(e, first, headers, v)
    requires forall v :: v in votes' ==>
      || (v in votes && !e.IsEpoch(h.number))
      || (IsVote(e, h) && e.SignerOf(h) == Some(v.signer) && v == VoteIn(h, v.signer))
    ensures forall v :: v in votes' ==> Backed(e, first, headers + [h], v)
  {
    forall v | v in votes'
      ensures Backed(e, first, headers + [h], v)
    {
      if v in votes && !e.IsEpoch(h.number) {
        BackedCarries(e, first, headers, h, v);
      } else {
        assert (headers + [h])[|headers|] == h;
      }
    }
  }

  lemma StepKeepsBacked(e: Engine, first: nat, headers: seq<Header>, t: Snapshot, h: Header)
    requires Booked(t) && Step(e, t, h).Ok? && h.number == first + |headers|
    requires headers != [] ==> headers[|headers| - 1].number + 1 == h.number
    requires forall v :: v in t.votes ==> Backed(e, first, headers, v)
    ensures forall v :: v in Step(e, t, h).value.votes ==> Backed(e, first, headers + [h], v)
  {
    StepKeepsBooks(e, t, h);
    NextVotesAreBacked(e, first, headers, t.votes, h, Step(e, t, h).value.votes);
  }

  /** Every pending vote of a reached snapshot stands for one header of the current epoch. */
  lemma {:induction false} PendingVotesAreBacked(e: Engine, s: Snapshot, headers: seq<Header>)
    requires Booked(s) && s.votes == []
    requires Contiguous(s.number, headers) && Replay(e, s, headers).Ok?
    ensures forall v :: v in Replay(e, s, headers).value.votes ==> Backed(e, s.number + 1, headers, v)
  {
    if headers != [] {
      var n := |headers| - 1;
      PendingVotesAreBacked(e, s, headers[..n]);
      ReplayKeepsBooks(e, s, headers[..n]);
      StepKeepsBacked(e, s.number + 1, headers[..n], Replay(e, s, headers[..n]).value, headers[n]);
      assert headers == headers[..n] + [headers[n]];
    }
  }

  lemma VoterVoted(e: Engine, first: nat, headers: seq<Header>, votes: seq<Vote>, h: Header, a: Address)
    returns (k: nat)
    requires forall v :: v in votes ==> Backed(e, first, headers, v)
    requires IsVote(e, h) && e.SignerOf(h).Some?
    requires headers != [] ==> headers[|headers| - 1].number + 1 == h.number
    requires a in Voters(votes, h.coinbase) + {e.SignerOf(h).value}
    requires forall v :: v in votes && v.address == h.coinbase ==> v.authorize == (h.nonce == NONCE_AUTH)
    ensures VotedInEpoch(e, headers + [h], k, a, h.coinbase, h.nonce == NONCE_AUTH)
  {
    if a == e.SignerOf(h).value {
      k := |headers|;
      assert (headers + [h])[k] == h;
    } else {
      var v :| v in votes && v.address == h.coinbase && v.signer == a;
      BackedCarries(e, first, headers, h, v);
      k := v.block - first;
    }
  }

  lemma VotersVoted(e: Engine, first: nat, headers: seq<Header>, votes: seq<Vote>, h: Header, authorize: bool)
    requires forall v :: v in votes ==> Backed(e, first, headers, v)
    requires IsVote(e, h) && e.SignerOf(h).Some? && authorize == (h.nonce == NONCE_AUTH)
    requires headers != [] ==> headers[|headers| - 1].number + 1 == h.number
    requires forall v :: v in votes && v.address == h.coinbase ==> v.authorize == authorize
    ensures forall a :: a in Voters(votes, h.coinbase) + {e.SignerOf(h).value} ==>
      exists k :: VotedInEpoch(e, headers + [h], k, a, h.coinbase, authorize)
  {
    forall a | a in Voters(votes, h.coinbase) + {e.SignerOf(h).value}
      ensures exists k :: VotedInEpoch(e, headers + [h], k, a, h.coinbase, authorize)
    {
      var k := VoterVoted(e, first, headers, votes, h, a);
    }
  }

  /** What it takes for a vote to pass: the voters and the direction they voted in. */
  ghost predicate Passed(e: Engine, headers: seq<Header>, before: set<Address>, after: set<Address>,
                         candidate: Address, authorize: bool, voters: set<Address>) {
    && authorize == (candidate !in before)
    && after == (if authorize then before + {candidate} else before - {candidate})
    && voters <= before
    && 2 * |voters| > |before|
    && forall a :: a in voters ==> exists k :: VotedInEpoch(e, headers, k, a, candidate, authorize)
  }

  lemma VoteThatPassed(e: Engine, first: nat, headers: seq<Header>, t: Snapshot, h: Header,
                       authorize: bool, voters: set<Address>)
    requires Directed(t.votes, t.signers) && VotersIn(t.votes, t.signers)
    requires IsVote(e, h) && e.SignerOf(h).Some? && e.SignerOf(h).value in t.signers
    requires headers != [] ==> headers[|headers| - 1].number + 1 == h.number
    requires forall v :: v in t.votes ==> Backed(e, first, headers, v)
    requires authorize == (h.nonce == NONCE_AUTH) && authorize == (h.coinbase !in t.signers)
    requires voters == Voters(t.votes, h.coinbase) + {e.SignerOf(h).value}
    requires 2 * |voters| > |t.signers|
    ensures Passed(e, headers + [h], t.signers,
                   if authorize then t.signers + {h.coinbase} else t.signers - {h.coinbase},
                   h.coinbase, authorize, voters)
  {
    VotersVoted(e, first, headers, t.votes, h, authorize);
  }

  /** EIP-225, "Voting on signers", over whole runs: a block between checkpoints adds or drops
      at most one address, and when it does, more than half of the signers each signed a header
      of the current epoch that votes that way on that address. */
  lemma {:induction false} MajorityRule(e: Engine, s: Snapshot, headers: seq<Header>, h: Header)
    returns (candidate: Address, authorize: bool, voters: set<Address>)
    requires Booked(s) && s.votes == []
    requires Contiguous(s.number, headers) && h.number == s.number + 1 + |headers| && !e.IsEpoch(h.number)
    requires Replay(e, s, headers).Ok? && Step(e, Replay(e, s, headers).value, h).Ok?
    ensures
      var before := Replay(e, s, headers).value;
      var after := Step(e, before, h).value;
      before.signers == after.signers
      || Passed(e, headers + [h], before.signers, after.signers, candidate, authorize, voters)
  {
    var t := Replay(e, s, headers).value;
    var signer := e.SignerOf(h).value;
    candidate, authorize := h.coinbase, h.nonce == NONCE_AUTH;
    voters := Voters(t.votes, candidate) + {signer};
    ReplayKeepsBooks(e, s, headers);
    StepChangesSignersIff(e, t, h);
    if Step(e, t, h).value.signers != t.signers {
      PendingVotesAreBacked(e, s, headers);
      VoteThatPassed(e, s.number + 1, headers, t, h, authorize, voters);
    }
  }
}

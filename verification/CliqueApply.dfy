/**
 Applying headers to a snapshot the way the client does it: on a working copy whose maps and
 vote list are edited in place, with deletion loops.  Every method is tied to the function in
 module Clique that says what it computes.
 */
module CliqueApply {
  import opened Primitives
  import opened Clique

  /** One turn of a deletion loop that has `k` of the votes in `all` behind it. */
  lemma DeletionStep(all: seq<Vote>, p: Vote -> bool, k: nat)
    requires k < |all|
    ensures
      var i := |Keep(all[..k], p)|;
      var votes := Keep(all[..k], p) + all[k..];
      var next := Keep(all[..k + 1], p) + all[k + 1..];
      && i < |votes| && votes[i] == all[k]
      && |Keep(all[..k + 1], p)| == (if p(all[k]) then i + 1 else i)
      && next == if p(all[k]) then votes else votes[..i] + votes[i + 1..]
  {
    KeepNext(all, p, k);
  }

  class Working {
    var number: nat
    var hash: Hash
    var signers: set<Address>
    var recents: map<nat, Address>
    var votes: seq<Vote>
    var tally: TallyMap

    function View(): Snapshot
      reads this
    {
      Snapshot(number, hash, signers, recents, votes, tally)
    }

    /** A private copy of `s`. */
    constructor (s: Snapshot)
      ensures View() == s
    {
      number, hash, signers, recents, votes, tally := s.number, s.hash, s.signers, s.recents, s.votes, s.tally;
    }

    method CastVote(a: Address, authorize: bool)
      modifies this`tally
      ensures View() == old(View()).(tally := Cast(old(tally), a, authorize))
    {
      if a !in tally || tally[a].authorize != authorize {
        tally := tally[a := Tally(authorize, 1)];
        return;
      }
      tally := tally[a := Tally(authorize, tally[a].votes + 1)];
    }

    method UncastVote(a: Address, authorize: bool)
      modifies this`tally
      ensures View() == old(View()).(tally := Uncast(old(tally), a, authorize))
    {
      if a !in tally || tally[a].authorize != authorize {
        return;
      }
      if tally[a].votes > 1 {
        tally := tally[a := Tally(authorize, tally[a].votes - 1)];
      } else {
        tally := tally - {a};
      }
    }

    method ReadSigners(data: seq<byte>)
      modifies this`signers
      ensures View() == old(View()).(signers := SignersIn(data))
    {
      signers := {};
      var i := 0;
      while i < |data|
        invariant 0 <= i
        invariant SignersIn(data) == signers + if i < |data| then SignersIn(data[i..]) else {}
      {
        var chunk := FirstChunk(data[i..]);
        assert data[i..][..chunk] == data[i .. i + chunk];
        assert data[i..][chunk..] == data[i + chunk..];
        signers := signers + {AddressIn(data[i .. i + chunk])};
        i := i + ADDRESS_LENGTH;
      }
    }

    /** Discards the first earlier vote by `signer` on `candidate`, if there is one. */
    method DiscardPrevious(signer: Address, candidate: Address)
      modifies this`votes, this`tally
      ensures View() == Discard(old(View()), signer, candidate)
    {
      ghost var before := votes;
      for i := 0 to |votes|
        invariant votes == before && tally == old(tally)
        invariant forall j :: 0 <= j < i ==> before[j].signer != signer || before[j].address != candidate
      {
        if votes[i].signer == signer && votes[i].address == candidate {
          UncastVote(candidate, votes[i].authorize);
          votes := votes[..i] + votes[i + 1..];
          break;
        }
      }
    }

    method ForgetRecents(candidate: Address)
      modifies this`recents
      ensures View() == old(View()).(recents := WithoutSigner(old(recents), candidate))
    {
      ghost var before := recents;
      var todo := recents.Keys;
      while todo != {}
        invariant todo <= before.Keys
        invariant recents == map b | b in before && (before[b] != candidate || b in todo) :: before[b]
        decreases todo
      {
        var b :| b in todo;
        if recents[b] == candidate {
          recents := recents - {b};
        }
        todo := todo - {b};
      }
    }

    /** Takes back and deletes every vote cast by `who`. */
    method DropVotesBy(who: Address)
      modifies this`votes, this`tally
      ensures View() == old(View()).(votes := Keep(old(votes), NotBy(who)),
                                     tally := UncastBy(old(tally), old(votes), who))
    {
      ghost var all := votes;
      ghost var k := 0;
      var i := 0;
      while i < |votes|
        invariant k <= |all|
        invariant i == |Keep(all[..k], NotBy(who))|
        invariant votes == Keep(all[..k], NotBy(who)) + all[k..]
        invariant tally == UncastBy(old(tally), all[..k], who)
        decreases |all| - k
      {
        assert k < |all|;
        DeletionStep(all, NotBy(who), k);
        UncastByNext(old(tally), all, who, k);
        if votes[i].signer == who {
          UncastVote(votes[i].address, votes[i].authorize);
          votes := votes[..i] + votes[i + 1..];
        } else {
          i := i + 1;
        }
        k := k + 1;
      }
      assert all[..k] == all;
    }

    /** Deletes every vote on `candidate`. */
    method DropVotesFor(candidate: Address)
      modifies this`votes
      ensures View() == old(View()).(votes := Keep(old(votes), NotFor(candidate)))
    {
      ghost var all := votes;
      ghost var k := 0;
      var i := 0;
      while i < |votes|
        invariant k <= |all|
        invariant i == |Keep(all[..k], NotFor(candidate))|
        invariant votes == Keep(all[..k], NotFor(candidate)) + all[k..]
        decreases |all| - k
      {
        DeletionStep(all, NotFor(candidate), k);
        if votes[i].address == candidate {
          votes := votes[..i] + votes[i + 1..];
        } else {
          i := i + 1;
        }
        k := k + 1;
      }
      assert all[..k] == all;
    }

    method ResolveVote(candidate: Address, authorize: bool)
      modifies this
      ensures View() == Resolve(old(View()), candidate, authorize)
    {
      if authorize {
        signers := signers + {candidate};
      } else {
        signers := signers - {candidate};
        ForgetRecents(candidate);
        DropVotesBy(candidate);
      }
      DropVotesFor(candidate);
      tally := tally - {candidate};
    }

    method RecordVote(v: Vote)
      modifies this
      ensures View() == Register(old(View()), v)
    {
      if ValidVote(View(), v.address, v.authorize) {
        votes := votes + [v];
        CastVote(v.address, v.authorize);
        if tally[v.address].votes > |signers| / 2 {
          ResolveVote(v.address, v.authorize);
        }
      }
    }

    method ApplyHeader(e: Engine, h: Header) returns (err: Option<Error>)
      modifies this
      ensures
        match Step(e, old(View()), h)
        case Ok(s) => err == None && View() == s
        case Err(error) => err == Some(error)
    {
      if e.IsEpoch(h.number) {
        if |h.extra| < EXTRA_VANITY + EXTRA_SEAL {
          return Some(ShortExtra);
        }
        ReadSigners(SignerSection(h.extra));
        votes, tally := [], map[];
      }
      var limit := Limit(signers);
      if h.number >= limit {
        recents := recents - {h.number - limit};
      }
      var recovered := e.SignerOf(h);
      if recovered == None {
        return Some(BadSeal);
      }
      var signer := recovered.value;
      if signer !in signers {
        return Some(Unauthorized);
      }
      if signer in recents.Values {
        return Some(RecentlySigned);
      }
      recents := recents[h.number := signer];
      if IsVote(e, h) {
        DiscardPrevious(signer, h.coinbase);
        RecordVote(VoteIn(h, signer));
      }
      number, hash := h.number, HashOf(h);
      err := None;
    }
  }

  /** Replays `headers` on a copy of `s`; `s` itself is a value and stays as it is. */
  method Apply(e: Engine, s: Snapshot, headers: seq<Header>) returns (r: Result<Snapshot, Error>)
    ensures r == Applied(e, s, headers)
  {
    if |headers| == 0 {
      return Ok(s);
    }
    if headers[0].number != s.number + 1 {
      return Err(NotNext);
    }
    for i := 1 to |headers|
      invariant forall k :: 0 <= k < i ==> headers[k].number == s.number + 1 + k
    {
      if headers[i].number != headers[i - 1].number + 1 {
        return Err(NotContiguous);
      }
    }
    var snap := new Working(s);
    for i := 0 to |headers|
      invariant Replay(e, s, headers[..i]) == Ok(snap.View())
    {
      ReplayTo(e, s, headers, i);
      var err := snap.ApplyHeader(e, headers[i]);
      if err.Some? {
        ReplayFails(e, s, headers, i + 1);
        return Err(err.value);
      }
    }
    assert headers[..|headers|] == headers;
    return Ok(snap.View());
  }

  lemma ReplayTo(e: Engine, s: Snapshot, headers: seq<Header>, i: nat)
    requires i < |headers| && Replay(e, s, headers[..i]).Ok?
    ensures Replay(e, s, headers[..i + 1]) == Step(e, Replay(e, s, headers[..i]).value, headers[i])
  {
    assert headers[..i + 1][..i] == headers[..i];
  }

  /** The first error of a replay is its result. */
  lemma {:induction false} ReplayFails(e: Engine, s: Snapshot, headers: seq<Header>, i: nat)
    requires i <= |headers| && Replay(e, s, headers[..i]).Err?
    ensures Replay(e, s, headers) == Replay(e, s, headers[..i])
  {
    var n := |headers| - 1;
    if i == |headers| {
      assert headers[..i] == headers;
    } else {
      assert headers[..n][..i] == headers[..i];
      ReplayFails(e, s, headers[..n], i);
    }
  }
}

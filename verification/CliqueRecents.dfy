/**
 The recent-signer window of the Clique snapshot (EIP-225, "Authorizing a block"): how far apart
 one signer's blocks are, when header verification and replay agree on who may sign, and when
 somebody always may.
 */
module CliqueRecents {
  import opened Primitives
  import opened Clique

  /** The signer set that applies while `h` is processed. */
  function SignersAt(e: Engine, s: Snapshot, h: Header): set<Address> {
    if e.IsEpoch(h.number) && EXTRA_VANITY + EXTRA_SEAL <= |h.extra|
    then SignersIn(SignerSection(h.extra)) else s.signers
  }

  ghost predicate StepFacts(e: Engine, s: Snapshot, h: Header, t: Snapshot) {
    var signers := SignersAt(e, s, h);
    && e.SignerOf(h).Some?
    && var signer := e.SignerOf(h).value;
    && signer in signers
    && t.number == h.number && t.hash == HashOf(h)
    && |t.signers| <= |signers| + 1
    && (forall b :: b in s.recents && b + Limit(signers) != h.number ==> s.recents[b] != signer)
    && (forall b :: b in t.recents ==>
          || (b == h.number && t.recents[b] == signer)
          || (b in s.recents && t.recents[b] == s.recents[b] && b + Limit(signers) != h.number))
    && (forall b ::
          (b in s.recents && b != h.number && b + Limit(signers) != h.number && s.recents[b] in t.signers)
          ==> b in t.recents && t.recents[b] == s.recents[b])
    && (signer in t.signers ==> h.number in t.recents && t.recents[h.number] == signer)
  }

  lemma ProcessVoteFacts(e: Engine, s: Snapshot, h: Header, signer: Address)
    ensures
      var t := ProcessVote(e, s, h, signer);
      && |t.signers| <= |s.signers| + 1
      && (t.recents == s.recents
          || (t.recents == WithoutSigner(s.recents, h.coinbase) && h.coinbase !in t.signers))
  {
    var d := Discard(s, signer, h.coinbase);
    assert d.signers == s.signers && d.recents == s.recents;
    assert |s.signers - {h.coinbase}| <= |s.signers|;
    assert |s.signers + {h.coinbase}| <= |s.signers| + 1;
  }

  lemma AdmitFacts(e: Engine, s: Snapshot, h: Header, s2: Snapshot)
    requires Admit(e, Evict(s, h.number), h) == Ok(s2)
    ensures
      var signer := e.SignerOf(h).value;
      && s2.signers == s.signers && signer in s.signers
      && s2.recents.Keys == set b | b in s.recents.Keys + {h.number} && b + Limit(s.signers) != h.number
      && s2.recents[h.number] == signer
      && forall b :: b in s.recents && b + Limit(s.signers) != h.number ==>
           s.recents[b] != signer && (b != h.number ==> s2.recents[b] == s.recents[b])
  {
    var evicted := Evict(s, h.number);
    forall b | b in s.recents && b + Limit(s.signers) != h.number
      ensures b in evicted.recents && s.recents[b] in evicted.recents.Values
    {
      assert evicted.recents[b] == s.recents[b];
    }
  }

  /** The three parts of a step. */
  lemma StepParts(e: Engine, s: Snapshot, h: Header) returns (s1: Snapshot, s2: Snapshot)
    requires Step(e, s, h).Ok?
    ensures s1.signers == SignersAt(e, s, h) && s1.recents == s.recents
    ensures Admit(e, Evict(s1, h.number), h) == Ok(s2) && e.SignerOf(h).Some?
    ensures Step(e, s, h).value == ProcessVote(e, s2, h, e.SignerOf(h).value).(number := h.number, hash := HashOf(h))
  {
    s1 := AtBoundary(e, s, h).value;
    s2 := Admit(e, Evict(s1, h.number), h).value;
  }

  lemma StepHasFacts(e: Engine, s: Snapshot, h: Header)
    requires Step(e, s, h).Ok?
    ensures StepFacts(e, s, h, Step(e, s, h).value)
  {
    var s1, s2 := StepParts(e, s, h);
    AdmitFacts(e, s1, h, s2);
    ProcessVoteFacts(e, s2, h, e.SignerOf(h).value);
  }

  // ----- Runs

  ghost predicate Leads(e: Engine, headers: seq<Header>, states: seq<Snapshot>, k: nat)
    requires |states| == |headers| + 1 && k < |headers|
  {
    Step(e, states[k], headers[k]) == Ok(states[k + 1])
  }

  /** A run: each header takes one snapshot to the next. */
  ghost predicate IsRun(e: Engine, headers: seq<Header>, states: seq<Snapshot>) {
    && |states| == |headers| + 1
    && Contiguous(states[0].number, headers)
    && forall k :: 0 <= k < |headers| ==> Leads(e, headers, states, k)
  }

  /** Replay computes the last snapshot of the run. */
  lemma {:induction false} ReplayIsRun(e: Engine, headers: seq<Header>, states: seq<Snapshot>)
    requires IsRun(e, headers, states)
    ensures Replay(e, states[0], headers) == Ok(states[|headers|])
  {
    if headers != [] {
      var n := |headers| - 1;
      var hs, ss := headers[..n], states[..n + 1];
      forall k | 0 <= k < n
        ensures Leads(e, hs, ss, k)
      {
        assert Leads(e, headers, states, k);
      }
      ReplayIsRun(e, hs, ss);
      assert Leads(e, headers, states, n);
    }
  }

  /** The snapshot after the first `k` headers. */
  function After(e: Engine, s: Snapshot, headers: seq<Header>, k: nat): Snapshot
    requires k <= |headers|
  {
    var r := Replay(e, s, headers[..k]);
    if r.Ok? then r.value else s
  }

  /** A replay that succeeds is a run through the snapshots after each header. */
  lemma {:induction false} ReplayHasRun(e: Engine, s: Snapshot, headers: seq<Header>)
    returns (states: seq<Snapshot>)
    requires Replay(e, s, headers).Ok? && Contiguous(s.number, headers)
    ensures IsRun(e, headers, states)
    ensures forall k :: 0 <= k <= |headers| ==> states[k] == After(e, s, headers, k)
  {
    if headers == [] {
      states := [s];
    } else {
      var n := |headers| - 1;
      var before := ReplayHasRun(e, s, headers[..n]);
      ReplayIsRun(e, headers[..n], before);
      states := before + [Replay(e, s, headers).value];
      assert headers[..n + 1] == headers;
      forall k | 0 <= k <= n
        ensures states[k] == After(e, s, headers, k)
      {
        assert headers[..n][..k] == headers[..k];
      }
      forall k | 0 <= k < |headers|
        ensures Leads(e, headers, states, k)
      {
        assert k < n ==> Leads(e, headers[..n], before, k);
      }
    }
  }

  lemma RunFacts(e: Engine, headers: seq<Header>, states: seq<Snapshot>, k: nat)
    requires IsRun(e, headers, states) && k < |headers|
    ensures StepFacts(e, states[k], headers[k], states[k + 1])
  {
    assert Leads(e, headers, states, k);
    StepHasFacts(e, states[k], headers[k]);
  }

  lemma NumberInRun(e: Engine, headers: seq<Header>, states: seq<Snapshot>, k: nat)
    requires IsRun(e, headers, states) && k <= |headers|
    ensures states[k].number == states[0].number + k
  {
    if k > 0 {
      RunFacts(e, headers, states, k - 1);
    }
  }

  /** Every checkpoint header of the run lists the signers in force at that point. */
  ghost predicate CarriesSigners(e: Engine, headers: seq<Header>, states: seq<Snapshot>)
    requires |states| == |headers| + 1
  {
    forall k :: 0 <= k < |headers| ==> SignersAt(e, states[k], headers[k]) == states[k].signers
  }

  /** `a` is a signer from just after header `i` until header `j` is processed. */
  ghost predicate Stays(states: seq<Snapshot>, a: Address, i: nat, j: nat)
    requires j < |states|
  {
    forall k :: i < k <= j ==> a in states[k].signers
  }

  /** Block `i`'s entry is still in the window, or the window has moved past it. */
  ghost predicate RememberedOrOld(before: Snapshot, after: Snapshot, i: nat, a: Address) {
    || (i in after.recents && after.recents[i] == a)
    || after.number >= i + Limit(before.signers)
  }

  /** Between two neighbouring snapshots the window forgets one entry, and removed signers. */
  ghost predicate SlidesTo(s: Snapshot, t: Snapshot) {
    && t.number == s.number + 1
    && |t.signers| <= |s.signers| + 1
    && forall b ::
         (b in s.recents && b != t.number && b + Limit(s.signers) != t.number && s.recents[b] in t.signers)
         ==> b in t.recents && t.recents[b] == s.recents[b]
  }

  lemma RememberedCarries(s0: Snapshot, s: Snapshot, t: Snapshot, i: nat, a: Address)
    requires RememberedOrOld(s0, s, i, a) && i <= s.number
    requires SlidesTo(s0, s) && SlidesTo(s, t) && a in t.signers
    ensures RememberedOrOld(s, t, i, a)
  {
  }

  lemma RunSlides(e: Engine, headers: seq<Header>, states: seq<Snapshot>, k: nat)
    requires IsRun(e, headers, states) && CarriesSigners(e, headers, states) && k < |headers|
    ensures SlidesTo(states[k], states[k + 1])
  {
    NumberInRun(e, headers, states, k);
    RunFacts(e, headers, states, k);
  }

  lemma {:induction false} WindowRemembers(
      e: Engine, headers: seq<Header>, states: seq<Snapshot>, i: nat, k: nat, a: Address)
    requires IsRun(e, headers, states) && CarriesSigners(e, headers, states)
    requires i < k <= |headers| && e.SignerOf(headers[i]) == Some(a) && Stays(states, a, i, k)
    ensures RememberedOrOld(states[k - 1], states[k], headers[i].number, a)
  {
    assert a in states[k].signers;
    if i == k - 1 {
      RunFacts(e, headers, states, i);
    } else {
      WindowRemembers(e, headers, states, i, k - 1, a);
      RunSlides(e, headers, states, k - 2);
      RunSlides(e, headers, states, k - 1);
      NumberInRun(e, headers, states, k - 1);
      RememberedCarries(states[k - 2], states[k - 1], states[k], headers[i].number, a);
    }
  }

  /** Two blocks by a signer who stayed authorised are at least floor(N/2)+1 apart, N being the
      number of signers when the later block is applied, however the set grew or shrank. */
  lemma SignerSpacing(e: Engine, headers: seq<Header>, states: seq<Snapshot>, i: nat, j: nat)
    requires IsRun(e, headers, states) && CarriesSigners(e, headers, states)
    requires i < j < |headers|
    requires e.SignerOf(headers[i]).Some? && e.SignerOf(headers[i]) == e.SignerOf(headers[j])
    requires Stays(states, e.SignerOf(headers[i]).value, i, j)
    ensures headers[j].number - headers[i].number >= |states[j].signers| / 2 + 1
  {
    WindowRemembers(e, headers, states, i, j, e.SignerOf(headers[i]).value);
    RunSlides(e, headers, states, j - 1);
    NumberInRun(e, headers, states, j);
    RunFacts(e, headers, states, j);
  }

  /** The same for any successful replay, in terms of the snapshots after its prefixes. */
  lemma ReplaySpacing(e: Engine, s: Snapshot, headers: seq<Header>, i: nat, j: nat)
    requires Replay(e, s, headers).Ok? && Contiguous(s.number, headers) && i < j < |headers|
    requires e.SignerOf(headers[i]).Some? && e.SignerOf(headers[i]) == e.SignerOf(headers[j])
    requires forall k :: 0 <= k < |headers| ==>
      SignersAt(e, After(e, s, headers, k), headers[k]) == After(e, s, headers, k).signers
    requires forall k :: i < k <= j ==> e.SignerOf(headers[i]).value in After(e, s, headers, k).signers
    ensures headers[j].number - headers[i].number >= |After(e, s, headers, j).signers| / 2 + 1
  {
    var states := ReplayHasRun(e, s, headers);
    SignerSpacing(e, headers, states, i, j);
  }

  // ----- Who may sign next

  /** The window replay scans before it admits the block at `number`. */
  function Window(s: Snapshot, number: nat): map<nat, Address> {
    Evict(s, number).recents
  }

  ghost predicate StaleEntry(s: Snapshot, number: nat, a: Address) {
    exists b :: b in s.recents && s.recents[b] == a && b + Limit(s.signers) < number
  }

  /** On any snapshot, replay refuses whoever verification refuses and, besides, whoever has an
      entry older than the window. */
  lemma ReplayRefusesIff(s: Snapshot, number: nat, a: Address)
    ensures a in Window(s, number).Values <==> HasRecentlySigned(s, number, a) || StaleEntry(s, number, a)
  {
    forall b | b in s.recents && b + Limit(s.signers) != number
      ensures b in Window(s, number) && s.recents[b] in Window(s, number).Values
    {
      assert Window(s, number)[b] == s.recents[b];
    }
    if a in Window(s, number).Values {
      var b :| b in Window(s, number) && Window(s, number)[b] == a;
      assert b in s.recents && s.recents[b] == a;
    }
  }

  /** Every entry lies inside the window that the next block will see. */
  ghost predicate Windowed(s: Snapshot) {
    forall b :: b in s.recents ==> b <= s.number < b + Limit(s.signers)
  }

  lemma StepStaysWindowed(e: Engine, s: Snapshot, h: Header)
    requires Windowed(s) && Step(e, s, h).Ok? && h.number == s.number + 1
    requires SignersAt(e, s, h) == s.signers && s.signers <= Step(e, s, h).value.signers
    ensures Windowed(Step(e, s, h).value)
  {
    StepHasFacts(e, s, h);
    var t := Step(e, s, h).value;
    SubsetIsNoLarger(s.signers, t.signers);
  }

  ghost predicate Grows(states: seq<Snapshot>, k: nat)
    requires k + 1 < |states|
  {
    states[k].signers <= states[k + 1].signers
  }

  ghost predicate NoRemovals(states: seq<Snapshot>) {
    forall k :: 0 <= k < |states| - 1 ==> Grows(states, k)
  }

  lemma {:induction false} RunStaysWindowed(e: Engine, headers: seq<Header>, states: seq<Snapshot>, k: nat)
    requires IsRun(e, headers, states) && CarriesSigners(e, headers, states) && NoRemovals(states)
    requires Windowed(states[0]) && k <= |headers|
    ensures Windowed(states[k])
  {
    if k > 0 {
      RunStaysWindowed(e, headers, states, k - 1);
      NumberInRun(e, headers, states, k - 1);
      assert Leads(e, headers, states, k - 1) && Grows(states, k - 1);
      StepStaysWindowed(e, states[k - 1], headers[k - 1]);
    }
  }

  lemma StepAdmitsIff(e: Engine, s: Snapshot, h: Header)
    requires Windowed(s) && h.number == s.number + 1 && SignersAt(e, s, h) == s.signers
    requires e.IsEpoch(h.number) ==> EXTRA_VANITY + EXTRA_SEAL <= |h.extra|
    ensures Step(e, s, h).Ok? <==>
      && e.SignerOf(h).Some?
      && e.SignerOf(h).value in s.signers
      && !HasRecentlySigned(s, h.number, e.SignerOf(h).value)
  {
    if e.SignerOf(h).Some? {
      var s1 := AtBoundary(e, s, h).value;
      assert s1.signers == s.signers && s1.recents == s.recents;
      assert Window(s1, h.number) == Window(s, h.number);
      ReplayRefusesIff(s, h.number, e.SignerOf(h).value);
    }
  }

  /** In a run without removals whose checkpoints carry the current signers, replay admits the
      next header exactly when its signer is authorised and passes verification's recency test. */
  lemma RecencyTestsAgree(e: Engine, headers: seq<Header>, states: seq<Snapshot>, h: Header)
    requires IsRun(e, headers, states) && CarriesSigners(e, headers, states) && NoRemovals(states)
    requires Windowed(states[0])
    requires h.number == states[0].number + 1 + |headers|
    requires e.IsEpoch(h.number) ==> EXTRA_VANITY + EXTRA_SEAL <= |h.extra|
    requires SignersAt(e, states[|headers|], h) == states[|headers|].signers
    ensures
      var t := states[|headers|];
      Step(e, t, h).Ok? <==>
        && e.SignerOf(h).Some?
        && e.SignerOf(h).value in t.signers
        && !HasRecentlySigned(t, h.number, e.SignerOf(h).value)
  {
    RunStaysWindowed(e, headers, states, |headers|);
    NumberInRun(e, headers, states, |headers|);
    StepAdmitsIff(e, states[|headers|], h);
  }

  // ----- Somebody may always sign

  lemma {:induction false} FewerValuesThanKeys(m: map<nat, Address>)
    ensures |m.Values| <= |m.Keys|
  {
    if m.Keys != {} {
      var k :| k in m.Keys;
      var rest := m - {k};
      FewerValuesThanKeys(rest);
      assert m.Keys == rest.Keys + {k};
      assert m.Values == rest.Values + {m[k]} by {
        forall v | v in m.Values
          ensures v in rest.Values + {m[k]}
        {
          var j :| j in m && m[j] == v;
          assert j != k ==> rest[j] == v;
        }
      }
    }
  }

  lemma {:induction false} BoundedKeys(keys: set<nat>, lo: int, hi: int)
    requires lo <= hi && forall b :: b in keys ==> lo < b <= hi
    ensures |keys| <= hi - lo
    decreases hi - lo
  {
    if lo == hi {
      assert keys == {};
    } else if hi in keys {
      BoundedKeys(keys - {hi}, lo, hi - 1);
    } else {
      BoundedKeys(keys, lo, hi - 1);
    }
  }

  lemma WindowIsSmall(s: Snapshot)
    requires Windowed(s)
    ensures |Window(s, s.number + 1).Keys| <= |s.signers| / 2
  {
    var keys := Window(s, s.number + 1).Keys;
    assert forall b :: b in keys ==> b in s.recents;
    BoundedKeys(keys, s.number + 1 - Limit(s.signers), s.number);
  }

  /** With every entry inside the window, a non-empty signer set has a signer free to sign. */
  lemma SomeoneMaySign(s: Snapshot)
    requires Windowed(s) && s.signers != {}
    ensures exists a :: a in s.signers && a !in Window(s, s.number + 1).Values
  {
    var window := Window(s, s.number + 1);
    WindowIsSmall(s);
    FewerValuesThanKeys(window);
    if s.signers <= window.Values {
      SubsetIsNoLarger(s.signers, window.Values);
      assert false;
    }
  }

  lemma SomeoneMayAlwaysSign(e: Engine, headers: seq<Header>, states: seq<Snapshot>)
    requires IsRun(e, headers, states) && CarriesSigners(e, headers, states) && NoRemovals(states)
    requires Windowed(states[0]) && states[|headers|].signers != {}
    ensures
      var t := states[|headers|];
      exists a :: a in t.signers && a !in Window(t, t.number + 1).Values
  {
    RunStaysWindowed(e, headers, states, |headers|);
    SomeoneMaySign(states[|headers|]);
  }

  // ----- What a removal can leave behind

  ghost predicate StuckEntry(s: Snapshot, b: nat, a: Address) {
    b in s.recents && s.recents[b] == a && b + Limit(s.signers) <= s.number
  }

  lemma StepStaysStuck(e: Engine, s: Snapshot, h: Header, b: nat, a: Address)
    requires StuckEntry(s, b, a) && Step(e, s, h).Ok? && h.number == s.number + 1
    requires SignersAt(e, s, h) == s.signers && a in Step(e, s, h).value.signers
    ensures StuckEntry(Step(e, s, h).value, b, a)
    ensures e.SignerOf(h) != Some(a)
  {
    StepHasFacts(e, s, h);
  }

  /** An entry the window has moved past is never evicted again: its signer, still authorised and
      accepted by verification, signs no block of any continuation. */
  lemma {:induction false} StuckForever(
      e: Engine, headers: seq<Header>, states: seq<Snapshot>, k: nat, b: nat, a: Address)
    requires IsRun(e, headers, states) && CarriesSigners(e, headers, states)
    requires StuckEntry(states[0], b, a) && k <= |headers| && Stays(states, a, 0, k)
    ensures StuckEntry(states[k], b, a)
    ensures k > 0 ==> e.SignerOf(headers[k - 1]) != Some(a)
  {
    if k > 0 {
      StuckForever(e, headers, states, k - 1, b, a);
      NumberInRun(e, headers, states, k - 1);
      assert Leads(e, headers, states, k - 1);
      StepStaysStuck(e, states[k - 1], headers[k - 1], b, a);
    }
  }

  lemma FirstDropVote(e: Engine, g: Snapshot, h1: Header, a: Address, b: Address)
    requires g.number == 0 && g.signers == {a, b} && a != b && b != ZERO_ADDRESS && e.epoch > 2
    requires g.recents == map[] && g.votes == [] && g.tally == map[]
    requires h1.number == 1 && e.SignerOf(h1) == Some(a) && h1.coinbase == b && h1.nonce == NONCE_DROP
    ensures Step(e, g, h1) == Ok(Snapshot(1, HashOf(h1), {a, b}, map[1 := a], [Vote(a, 1, b, false)],
                                          map[b := Tally(false, 1)]))
  {
    assert |{a, b}| == 2;
    assert AtBoundary(e, g, h1) == Ok(g) && Evict(g, 1) == g;
    var s2 := Admit(e, g, h1).value;
    assert s2 == g.(recents := map[1 := a]);
    assert Discard(s2, a, b) == s2;
    assert s2.votes + [VoteIn(h1, a)] == [Vote(a, 1, b, false)];
    assert Cast(s2.tally, b, false) == map[b := Tally(false, 1)];
  }

  lemma SecondDropVote(e: Engine, t1: Snapshot, h2: Header, a: Address, b: Address)
    requires a != b && b != ZERO_ADDRESS && e.epoch > 3
    requires t1.signers == {a, b} && t1.recents == map[1 := a]
    requires t1.votes == [Vote(a, 1, b, false)] && t1.tally == map[b := Tally(false, 1)]
    requires h2.number == 2 && e.SignerOf(h2) == Some(b) && h2.coinbase == b && h2.nonce == NONCE_DROP
    ensures Step(e, t1, h2).Ok?
    ensures Step(e, t1, h2).value.signers == {a} && Step(e, t1, h2).value.recents == map[1 := a]
  {
    assert |{a, b}| == 2;
    var s2 := Admit(e, Evict(t1, 2), h2).value;
    assert s2 == t1.(recents := map[1 := a, 2 := b]);
    assert Discard(s2, b, b) == s2;
    assert Cast(s2.tally, b, false)[b].votes == 2;
  }

  lemma NoThirdBlock(e: Engine, t: Snapshot, h3: Header, a: Address)
    requires e.epoch > 3 && h3.number == 3 && t.signers == {a} && t.recents == map[1 := a]
    ensures !HasRecentlySigned(t, 3, a) && Step(e, t, h3).Err?
  {
    assert 1 in t.recents && t.recents[1] == a && 1 + Limit(t.signers) < 3;
    ReplayRefusesIff(t, 3, a);
    assert AtBoundary(e, t, h3) == Ok(t);
  }

  /** A header between checkpoints that obeys every rule that does not depend on the snapshot, sealed
      by `signer` a period after its parent. */
  predicate IsWellMade(e: Engine, h: Header, number: nat, signer: Address, parent: Header) {
    && h.number == number && !e.IsEpoch(number) && e.SignerOf(h) == Some(signer)
    && |h.extra| == EXTRA_VANITY + EXTRA_SEAL && h.uncleHash == EMPTY_UNCLE_HASH && h.mixDigest == ZERO_HASH
    && h.nonce == NONCE_DROP && h.time >= parent.time + e.period
  }

  lemma WellMadeVerifies(e: Engine, s: Snapshot, h: Header, signer: Address, parent: Header)
    requires IsWellMade(e, h, h.number, signer, parent)
    requires signer in s.signers && !HasRecentlySigned(s, h.number, signer)
    requires h.difficulty == CalcDifficulty(s, h.number, signer)
    ensures VerifyHeader(e, s, h, Some(parent)) == None
  {
  }

  lemma LoneSignerIsInTurn(s: Snapshot, number: nat, a: Address)
    requires s.signers == {a}
    ensures CalcDifficulty(s, number, a) == DIFF_IN_TURN
  {
    assert SignerList(s)[number % 1] in SignerList(s);
  }

  /** Two signers who both vote in blocks 1 and 2 to drop the second leave a chain that no header
      can extend, although all three headers pass verification. */
  lemma RemovalCanStrandTheChain(
      e: Engine, g: Snapshot, gh: Header, h1: Header, h2: Header, h3: Header, a: Address, b: Address)
    requires g.number == 0 && g.signers == {a, b} && a != b && b != ZERO_ADDRESS && e.epoch > 3
    requires g.recents == map[] && g.votes == [] && g.tally == map[]
    requires IsWellMade(e, h1, 1, a, gh) && h1.coinbase == b && h1.difficulty == CalcDifficulty(g, 1, a)
    requires IsWellMade(e, h2, 2, b, h1) && h2.coinbase == b && h2.difficulty == CalcDifficulty(g, 2, b)
    requires IsWellMade(e, h3, 3, a, h2) && h3.difficulty == DIFF_IN_TURN
    ensures Replay(e, g, [h1]).Ok? && Replay(e, g, [h1, h2]).Ok?
    ensures
      var t1, t := Replay(e, g, [h1]).value, Replay(e, g, [h1, h2]).value;
      && VerifyHeader(e, g, h1, Some(gh)) == None
      && VerifyHeader(e, t1, h2, Some(h1)) == None
      && VerifyHeader(e, t, h3, Some(h2)) == None
      && t.signers == {a}
      && forall h: Header :: h.number == 3 ==> Step(e, t, h).Err?
  {
    FirstDropVote(e, g, h1, a, b);
    var t1 := Step(e, g, h1).value;
    SecondDropVote(e, t1, h2, a, b);
    ReplayTwo(e, g, h1, h2);
    var t := Replay(e, g, [h1, h2]).value;
    WellMadeVerifies(e, g, h1, a, gh);
    assert SignerList(t1) == SignerList(g);
    WellMadeVerifies(e, t1, h2, b, h1);
    forall h: Header | h.number == 3
      ensures Step(e, t, h).Err? && !HasRecentlySigned(t, 3, a)
    {
      NoThirdBlock(e, t, h, a);
    }
    LoneSignerIsInTurn(t, 3, a);
    WellMadeVerifies(e, t, h3, a, h2);
  }

  lemma ReplayTwo(e: Engine, g: Snapshot, h1: Header, h2: Header)
    requires Step(e, g, h1).Ok?
    ensures Replay(e, g, [h1]) == Step(e, g, h1)
    ensures Replay(e, g, [h1, h2]) == Step(e, Step(e, g, h1).value, h2)
  {
    assert [h1, h2][..1] == [h1] && [h1][..0] == [];
    assert Replay(e, g, [h1]) == Step(e, g, h1);
  }
}

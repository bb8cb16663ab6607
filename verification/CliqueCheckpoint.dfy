/**
 Epoch checkpoints of the Clique chain: starting from a checkpoint header instead of genesis
 changes nothing but the recent-signer window, and a checkpoint's extra data survives the trip
 through sealing and back.
 */
module CliqueCheckpoint {
  import opened Primitives
  import opened Clique

  /** `t` is `s` except that its recent-signer window may have fewer entries. */
  ghost predicate Agrees(s: Snapshot, t: Snapshot) {
    && t == s.(recents := t.recents)
    && Within(t.recents, s.recents)
  }

  ghost predicate Within(m: map<nat, Address>, n: map<nat, Address>) {
    forall b :: b in m ==> b in n && m[b] == n[b]
  }

  lemma ValuesWithin(m: map<nat, Address>, n: map<nat, Address>, a: Address)
    requires Within(m, n) && a in m.Values
    ensures a in n.Values
  {
    var b :| b in m && m[b] == a;
    assert n[b] == a;
  }

  lemma VotesIgnoreRecents(e: Engine, s: Snapshot, t: Snapshot, h: Header, signer: Address)
    requires Agrees(s, t)
    ensures Agrees(ProcessVote(e, s, h, signer), ProcessVote(e, t, h, signer))
  {
    var d, d' := Discard(s, signer, h.coinbase), Discard(t, signer, h.coinbase);
    assert Agrees(d, d');
    assert Within(WithoutSigner(t.recents, h.coinbase), WithoutSigner(s.recents, h.coinbase));
  }

  /** A smaller window never turns an accepted header away. */
  lemma StepKeepsAgreement(e: Engine, s: Snapshot, t: Snapshot, h: Header)
    requires Agrees(s, t) && Step(e, s, h).Ok?
    ensures Step(e, t, h).Ok? && Agrees(Step(e, s, h).value, Step(e, t, h).value)
  {
    var s1, t1 := AtBoundary(e, s, h).value, AtBoundary(e, t, h).value;
    var s2, t2 := Evict(s1, h.number), Evict(t1, h.number);
    assert Agrees(s2, t2);
    var signer := e.SignerOf(h).value;
    if signer in t2.recents.Values {
      ValuesWithin(t2.recents, s2.recents, signer);
    }
    VotesIgnoreRecents(e, Admit(e, s2, h).value, Admit(e, t2, h).value, h, signer);
  }

  lemma {:induction false} ReplayKeepsAgreement(e: Engine, s: Snapshot, t: Snapshot, headers: seq<Header>)
    requires Agrees(s, t) && Replay(e, s, headers).Ok?
    ensures Replay(e, t, headers).Ok? && Agrees(Replay(e, s, headers).value, Replay(e, t, headers).value)
  {
    if headers != [] {
      var n := |headers| - 1;
      ReplayKeepsAgreement(e, s, t, headers[..n]);
      StepKeepsAgreement(e, Replay(e, s, headers[..n]).value, Replay(e, t, headers[..n]).value, headers[n]);
    }
  }

  /** After an accepted checkpoint header, replay's snapshot and the header's own agree. */
  lemma CheckpointAgrees(e: Engine, s: Snapshot, h: Header)
    requires e.IsEpoch(h.number) && Step(e, s, h).Ok? && CheckpointSnapshot(h).Ok?
    ensures Agrees(Step(e, s, h).value, CheckpointSnapshot(h).value)
  {
  }

  lemma ReplayNext(e: Engine, s: Snapshot, headers: seq<Header>, h: Header)
    ensures Replay(e, s, headers + [h]) ==
      if Replay(e, s, headers).Ok? then Step(e, Replay(e, s, headers).value, h) else Replay(e, s, headers)
  {
    assert (headers + [h])[..|headers|] == headers;
  }

  lemma {:induction false} ReplaySplits(e: Engine, s: Snapshot, a: seq<Header>, b: seq<Header>)
    ensures Replay(e, s, a + b) ==
      if Replay(e, s, a).Ok? then Replay(e, Replay(e, s, a).value, b) else Replay(e, s, a)
  {
    if b == [] {
      assert a + b == a;
    } else {
      var front, last := b[..|b| - 1], b[|b| - 1];
      assert b == front + [last] && a + b == (a + front) + [last];
      ReplaySplits(e, s, a, front);
      ReplayNext(e, s, a + front, last);
      if Replay(e, s, a).Ok? {
        ReplayNext(e, Replay(e, s, a).value, front, last);
      }
    }
  }

  /** Checkpoint refinement: whenever replay of a chain succeeds, replay of the headers after any
      well-formed checkpoint, started from the checkpoint alone, succeeds too and ends with the
      same number, hash, signers, votes and tally, and a window that is part of the full one. */
  lemma CheckpointRefinesReplay(
      e: Engine, s: Snapshot, before: seq<Header>, checkpoint: Header, after: seq<Header>)
    requires Replay(e, s, before + [checkpoint] + after).Ok?
    requires e.IsEpoch(checkpoint.number) && CheckpointSnapshot(checkpoint).Ok?
    ensures
      var c := CheckpointSnapshot(checkpoint).value;
      && Replay(e, c, after).Ok?
      && Agrees(Replay(e, s, before + [checkpoint] + after).value, Replay(e, c, after).value)
  {
    var upTo := before + [checkpoint];
    ReplaySplits(e, s, upTo, after);
    ReplayNext(e, s, before, checkpoint);
    CheckpointAgrees(e, Replay(e, s, before).value, checkpoint);
    ReplayKeepsAgreement(e, Replay(e, s, upTo).value, CheckpointSnapshot(checkpoint).value, after);
  }

  // ----- Verification under a smaller window

  /** A header that verifies under a snapshot verifies under one that agrees with it. */
  lemma VerifyKeepsAgreement(e: Engine, s: Snapshot, t: Snapshot, h: Header, parent: Option<Header>)
    requires Agrees(s, t) && VerifyHeader(e, s, h, parent) == None
    ensures VerifyHeader(e, t, h, parent) == None
  {
    assert SignerList(s) == SignerList(t);
  }

  // ----- Building and reading back a checkpoint's extra data

  function AddressBytes(a: nat, k: nat): (b: seq<byte>)
    ensures |b| == k
  {
    if k == 0 then [] else AddressBytes(a / 256, k - 1) + [a % 256]
  }

  lemma {:induction false} AddressBytesReadBack(a: nat, k: nat)
    requires a < Pow256(k)
    ensures BigEndian(AddressBytes(a, k)) == a
  {
    if k > 0 {
      var b := AddressBytes(a, k);
      AddressBytesReadBack(a / 256, k - 1);
      assert b[..k - 1] == AddressBytes(a / 256, k - 1);
    }
  }

  lemma AddressReadsBack(a: Address)
    ensures AddressIn(AddressBytes(a, ADDRESS_LENGTH)) == a
  {
    AddressSpaceIs20Bytes();
    AddressBytesReadBack(a, ADDRESS_LENGTH);
    var b := AddressBytes(a, ADDRESS_LENGTH);
    assert b + Zeros(0) == b;
  }

  function Packed(list: seq<Address>): (b: seq<byte>)
    ensures |b| == ADDRESS_LENGTH * |list|
  {
    if list == [] then []
    else Packed(list[..|list| - 1]) + AddressBytes(list[|list| - 1], ADDRESS_LENGTH)
  }

  lemma {:induction false} PackedIsWhole(list: seq<Address>)
    ensures |Packed(list)| % ADDRESS_LENGTH == 0
    ensures list != [] ==> |Packed(list)| != 0
  {
    if list != [] {
      PackedIsWhole(list[..|list| - 1]);
    }
  }

  lemma PackedNext(list: seq<Address>, i: nat)
    requires i < |list|
    ensures Packed(list[..i + 1]) == Packed(list[..i]) + AddressBytes(list[i], ADDRESS_LENGTH)
  {
    assert list[..i + 1][..i] == list[..i];
  }

  lemma {:induction false} PackedFront(a: Address, list: seq<Address>)
    ensures Packed([a] + list) == AddressBytes(a, ADDRESS_LENGTH) + Packed(list)
  {
    if list == [] {
      assert [a] + list == [a] && [a][..0] == [];
    } else {
      var n := |list| - 1;
      assert ([a] + list)[..|list|] == [a] + list[..n];
      PackedFront(a, list[..n]);
    }
  }

  lemma {:induction false} PackedReadsBack(list: seq<Address>)
    ensures forall a: Address :: a in SignersIn(Packed(list)) <==> a in list
  {
    if list != [] {
      PackedReadsBack(list[1..]);
      PackedFront(list[0], list[1..]);
      assert list == [list[0]] + list[1..];
      var data := Packed(list);
      assert data[..ADDRESS_LENGTH] == AddressBytes(list[0], ADDRESS_LENGTH);
      assert data[ADDRESS_LENGTH..] == Packed(list[1..]);
      AddressReadsBack(list[0]);
    }
  }

  /** The extra data of the next block, with an empty seal. */
  function ExtraFor(e: Engine, s: Snapshot, number: nat): seq<byte> {
    var signers := if e.IsEpoch(number) then Packed(SignerList(s)) else [];
    Zeros(EXTRA_VANITY) + signers + Zeros(EXTRA_SEAL)
  }

  lemma ConcatAssociates(a: seq<byte>, b: seq<byte>, c: seq<byte>)
    ensures a + b + c == a + (b + c)
  {
  }

  method BuildExtra(e: Engine, s: Snapshot, number: nat) returns (extra: seq<byte>)
    ensures extra == ExtraFor(e, s, number)
  {
    var vanity := Zeros(EXTRA_VANITY);
    extra := vanity;
    if e.IsEpoch(number) {
      var list := SignerList(s);
      for i := 0 to |list|
        invariant extra == vanity + Packed(list[..i])
      {
        PackedNext(list, i);
        ConcatAssociates(vanity, Packed(list[..i]), AddressBytes(list[i], ADDRESS_LENGTH));
        extra := extra + AddressBytes(list[i], ADDRESS_LENGTH);
      }
      assert list[..|list|] == list;
    }
    extra := extra + Zeros(EXTRA_SEAL);
  }

  /** Sealing overwrites the last 65 bytes. */
  function Sealed(extra: seq<byte>, seal: seq<byte>): seq<byte>
    requires EXTRA_SEAL <= |extra|
  {
    extra[..|extra| - EXTRA_SEAL] + seal
  }

  lemma SectionSurvivesSealing(section: seq<byte>, seal: seq<byte>)
    requires |seal| == EXTRA_SEAL
    ensures
      var extra := Sealed(Zeros(EXTRA_VANITY) + section + Zeros(EXTRA_SEAL), seal);
      && |extra| == EXTRA_VANITY + |section| + EXTRA_SEAL
      && SignerSection(extra) == section
  {
  }

  lemma EpochStepReadsHeader(e: Engine, t: Snapshot, h: Header)
    requires e.IsEpoch(h.number) && Step(e, t, h).Ok?
    ensures EXTRA_VANITY + EXTRA_SEAL <= |h.extra|
    ensures Step(e, t, h).value.signers == SignersIn(SignerSection(h.extra))
    ensures Step(e, t, h).value.votes == [] && Step(e, t, h).value.tally == map[]
  {
  }

  lemma SignersReadBack(signers: set<Address>)
    ensures SignersIn(Packed(Ascending(signers))) == signers
  {
    PackedReadsBack(Ascending(signers));
  }

  /** The extra data built for a block passes verification's length rule once sealed; at an epoch
      it reads back as exactly the signer set it was built from, and an accepted checkpoint that
      carries it leaves that signer set with no votes and no tally. */
  lemma CheckpointRoundTrip(e: Engine, s: Snapshot, h: Header, seal: seq<byte>, t: Snapshot)
    requires s.signers != {} && |seal| == EXTRA_SEAL
    requires h.extra == Sealed(ExtraFor(e, s, h.number), seal)
    ensures ExtraLengthOk(e, h)
    ensures e.IsEpoch(h.number) ==>
      CheckpointSnapshot(h) == Ok(Snapshot(h.number, HashOf(h), s.signers, map[], [], map[]))
    ensures e.IsEpoch(h.number) && Step(e, t, h).Ok? ==>
      var t' := Step(e, t, h).value;
      t'.signers == s.signers && t'.votes == [] && t'.tally == map[]
  {
    var section := if e.IsEpoch(h.number) then Packed(SignerList(s)) else [];
    SectionSurvivesSealing(section, seal);
    if e.IsEpoch(h.number) {
      SignersReadBack(s.signers);
      PackedIsWhole(SignerList(s));
      if Step(e, t, h).Ok? {
        EpochStepReadsHeader(e, t, h);
      }
    }
  }
}

/**
 What it means for the node's cached snapshots to be right.

 StateAt replays the chain of a block from genesis.  A cached snapshot is faithful when it agrees
 with that replay, and the cache is coherent when its epoch entries sit on the canonical chain.
 */
module SnapshotCache {
  import opened Primitives
  import opened Clique
  import opened CliqueCheckpoint
  import opened CliqueStep
  import opened ForkTree

  /** Replay from genesis up to and including block `h`. */
  ghost function StateAt(e: Engine, g: Header, h: Hash): Result<Snapshot, Error>
    requires Rooted(g, h)
    decreases h
  {
    if h.header == g then CheckpointSnapshot(g)
    else
      var s :- StateAt(e, g, h.header.parentHash);
      Step(e, s, h.header)
  }

  lemma StepNames(e: Engine, s: Snapshot, h: Header)
    requires Step(e, s, h).Ok?
    ensures Step(e, s, h).value.number == h.number && Step(e, s, h).value.hash == HashOf(h)
  {
  }

  // ----- Faithful snapshots

  /** No checkpoint lies from block `b` up to block `n`. */
  ghost predicate SinceCheckpoint(e: Engine, b: nat, n: nat) {
    b <= n && forall k: nat :: b <= k <= n ==> !e.IsEpoch(k)
  }

  /** `t` has every recent signer of `s` since the last checkpoint. */
  ghost predicate Recalls(e: Engine, s: Snapshot, t: Snapshot) {
    forall b :: b in s.recents && SinceCheckpoint(e, b, s.number) ==> b in t.recents && t.recents[b] == s.recents[b]
  }

  lemma StepKeepsRecall(e: Engine, s: Snapshot, t: Snapshot, h: Header)
    requires Agrees(s, t) && Recalls(e, s, t) && h.number == s.number + 1
    requires Step(e, s, h).Ok? && Step(e, t, h).Ok? && Step(e, s, h).value.signers == Step(e, t, h).value.signers
    ensures Recalls(e, Step(e, s, h).value, Step(e, t, h).value)
  {
    var s', t' := Step(e, s, h).value, Step(e, t, h).value;
    StepNames(e, s, h);
    forall b | b in s'.recents && SinceCheckpoint(e, b, s'.number)
      ensures b in t'.recents && t'.recents[b] == s'.recents[b]
    {
      StepRecentsIff(e, s, h, b, s'.recents[b]);
      StepRecentsIff(e, t, h, b, s'.recents[b]);
      assert b <= s.number ==> SinceCheckpoint(e, b, s.number);
    }
  }

  /** `snap` is a snapshot of the block it names: if that block's chain replays from genesis, the
      two agree on everything but recent signers from before the last checkpoint. */
  ghost predicate Faithful(e: Engine, g: Header, snap: Snapshot) {
    && Rooted(g, snap.hash)
    && snap.number == snap.hash.header.number
    && (StateAt(e, g, snap.hash).Ok? ==>
          Agrees(StateAt(e, g, snap.hash).value, snap) && Recalls(e, StateAt(e, g, snap.hash).value, snap))
  }

  lemma GenesisIsFaithful(e: Engine, g: Header)
    requires g.number == 0 && CheckpointSnapshot(g).Ok?
    ensures Faithful(e, g, CheckpointSnapshot(g).value)
  {
  }

  /** A checkpoint header stands for itself. */
  lemma CheckpointIsFaithful(e: Engine, g: Header, h: Hash)
    requires Rooted(g, h) && h.header != g && e.IsEpoch(h.header.number) && CheckpointSnapshot(h.header).Ok?
    ensures Faithful(e, g, CheckpointSnapshot(h.header).value)
  {
    if StateAt(e, g, h).Ok? {
      CheckpointAgrees(e, StateAt(e, g, h.header.parentHash).value, h.header);
      StepNames(e, StateAt(e, g, h.header.parentHash).value, h.header);
      assert !SinceCheckpoint(e, h.header.number, h.header.number);
    }
  }

  /** Applying a child block to a faithful snapshot is faithful, and works whenever the child's
      chain replays from genesis. */
  lemma ChildIsFaithful(e: Engine, g: Header, snap: Snapshot, h: Header)
    requires Faithful(e, g, snap) && h.parentHash == snap.hash && h.number == snap.number + 1
    ensures Rooted(g, HashOf(h)) && h != g
    ensures StateAt(e, g, HashOf(h)).Ok? ==> Step(e, snap, h).Ok?
    ensures Step(e, snap, h).Ok? ==>
      Faithful(e, g, Step(e, snap, h).value) && Step(e, snap, h).value.hash == HashOf(h)
  {
    if Step(e, snap, h).Ok? {
      StepNames(e, snap, h);
    }
    if StateAt(e, g, HashOf(h)).Ok? {
      StepKeepsAgreement(e, StateAt(e, g, snap.hash).value, snap, h);
      StepKeepsRecall(e, StateAt(e, g, snap.hash).value, snap, h);
    }
  }

  // ----- Along a path

  /** Block `i` of `p` follows block `i - 1`. */
  ghost predicate Follower(g: Header, p: seq<Hash>, i: nat)
    requires i < |p|
  {
    && Succeeds(p, i)
    && Rooted(g, p[i])
    && (i > 0 ==> p[i].header != g)
  }

  ghost predicate IsPath(g: Header, p: seq<Hash>) {
    p != [] && p[0] == HashOf(g) && forall i :: 0 <= i < |p| ==> Follower(g, p, i)
  }

  lemma {:induction false} PathFollows(g: Header, h: Hash)
    requires Rooted(g, h)
    ensures IsPath(g, Path(g, h))
    decreases h
  {
    var p := Path(g, h);
    if h.header == g {
      assert Follower(g, p, 0);
    } else {
      var q := Path(g, h.header.parentHash);
      PathFollows(g, h.header.parentHash);
      forall i | 0 <= i < |p|
        ensures Follower(g, p, i)
      {
        if i < |q| {
          assert Follower(g, q, i);
        }
      }
    }
  }

  lemma PathsMeet(g: Header, p: seq<Hash>, q: seq<Hash>, i: nat)
    requires IsPath(g, p) && IsPath(g, q) && i < |p| && i < |q| && p[i] == q[i]
    ensures p[..i + 1] == q[..i + 1]
  {
    forall k | 0 <= k <= i
      ensures Succeeds(p, k) && Succeeds(q, k)
    {
      assert Follower(g, p, k) && Follower(g, q, k);
    }
    LinksMeet(p, q, i);
  }

  /** The headers are those of the blocks right after block `k` of `p`. */
  ghost predicate AreHeaders(p: seq<Hash>, k: nat, headers: seq<Header>) {
    k + |headers| < |p| && forall i :: 0 <= i < |headers| ==> HashOf(headers[i]) == p[k + 1 + i]
  }

  /** `r` is a faithful snapshot of block `h`, and there is one if the block replays from genesis. */
  ghost predicate IsReplayed(e: Engine, g: Header, h: Hash, r: Result<Snapshot, Error>) {
    && Rooted(g, h)
    && (StateAt(e, g, h).Ok? ==> r.Ok?)
    && (r.Ok? ==> Faithful(e, g, r.value) && r.value.hash == h)
  }

  lemma StepAlong(e: Engine, g: Header, p: seq<Hash>, k: nat, r: Result<Snapshot, Error>, h: Header)
    requires IsPath(g, p) && k + 1 < |p| && HashOf(h) == p[k + 1] && IsReplayed(e, g, p[k], r)
    ensures IsReplayed(e, g, p[k + 1], if r.Ok? then Step(e, r.value, h) else r)
  {
    assert Follower(g, p, k) && Follower(g, p, k + 1);
    if r.Ok? {
      ChildIsFaithful(e, g, r.value, h);
    }
  }

  /** Replaying canonical headers on top of a faithful snapshot of block `k` gives a faithful
      snapshot of the last one, and works whenever that block replays from genesis. */
  lemma {:induction false} ReplayAlong(e: Engine, g: Header, p: seq<Hash>, base: Snapshot, headers: seq<Header>)
    requires IsPath(g, p) && Faithful(e, g, base)
    requires AreHeaders(p, base.number, headers) && base.hash == p[base.number]
    ensures IsReplayed(e, g, p[base.number + |headers|], Replay(e, base, headers))
  {
    if headers == [] {
      assert Follower(g, p, base.number);
    } else {
      var n := |headers| - 1;
      ReplayAlong(e, g, p, base, headers[..n]);
      StepAlong(e, g, p, base.number + n, Replay(e, base, headers[..n]), headers[n]);
    }
  }

  // ----- Verified chains

  /** The two demands on a verified block.  Verified quantifies over them, so that a proof that only
      passes the fact along does not open it. */
  datatype Demand = Replays | Passing

  ghost predicate Meets(d: Demand, e: Engine, g: Header, h: Hash)
    requires h.HashOf?
    decreases h, 0
  {
    match d
    case Replays => Rooted(g, h) && StateAt(e, g, h).Ok?
    case Passing =>
      h.header == g ||
      (&& Verified(e, g, h.header.parentHash) && Rooted(g, h.header.parentHash)
       && StateAt(e, g, h.header.parentHash).Ok? && Passes(e, g, h.header))
  }

  /** Every header up to `h` passes verification against the full replay before it, and replays. */
  ghost predicate Verified(e: Engine, g: Header, h: Hash)
    decreases h, 1
  {
    match h
    case Raw(_) => false
    case HashOf(_) => forall d: Demand :: Meets(d, e, g, h)
  }

  lemma VerifiedFacts(e: Engine, g: Header, h: Hash)
    requires Verified(e, g, h)
    ensures Rooted(g, h) && StateAt(e, g, h).Ok?
    ensures h.header == g ||
      (&& Verified(e, g, h.header.parentHash) && Rooted(g, h.header.parentHash)
       && StateAt(e, g, h.header.parentHash).Ok? && Passes(e, g, h.header))
  {
    assert Meets(Replays, e, g, h) && Meets(Passing, e, g, h);
  }

  /** The header passes verification against the full replay up to its parent. */
  ghost predicate Passes(e: Engine, g: Header, h: Header)
    requires Rooted(g, h.parentHash) && StateAt(e, g, h.parentHash).Ok?
  {
    VerifyHeader(e, StateAt(e, g, h.parentHash).value, h, Some(h.parentHash.header)) == None
  }

  lemma ParentIsVerified(e: Engine, g: Header, h: Hash)
    requires Verified(e, g, h) && h.header != g
    ensures Verified(e, g, h.header.parentHash)
  {
    VerifiedFacts(e, g, h);
  }

  lemma {:induction false} AncestorIsVerified(e: Engine, g: Header, p: seq<Hash>, n: nat, i: nat)
    requires IsPath(g, p) && i <= n < |p| && Verified(e, g, p[n])
    ensures Verified(e, g, p[i])
  {
    if i < n {
      assert Follower(g, p, n);
      ParentIsVerified(e, g, p[n]);
      AncestorIsVerified(e, g, p, n - 1, i);
    }
  }

  /** A verified epoch header is a well-formed checkpoint. */
  lemma VerifiedCheckpoint(e: Engine, g: Header, h: Hash)
    requires Verified(e, g, h) && e.IsEpoch(h.header.number)
    ensures CheckpointSnapshot(h.header).Ok?
  {
    VerifiedFacts(e, g, h);
    if h.header != g {
      assert Passes(e, g, h.header);
      EpochExtraIsCheckpoint(e, StateAt(e, g, h.header.parentHash).value, h.header, Some(h.header.parentHash.header));
    }
  }

  lemma EpochExtraIsCheckpoint(e: Engine, s: Snapshot, h: Header, parent: Option<Header>)
    requires VerifyHeader(e, s, h, parent) == None && e.IsEpoch(h.number)
    ensures CheckpointSnapshot(h).Ok?
  {
    PassingHasLength(e, s, h, parent);
    LengthIsCheckpoint(e, h);
  }

  lemma PassingHasLength(e: Engine, s: Snapshot, h: Header, parent: Option<Header>)
    requires VerifyHeader(e, s, h, parent) == None
    ensures ExtraLengthOk(e, h)
  {
  }

  lemma LengthIsCheckpoint(e: Engine, h: Header)
    requires ExtraLengthOk(e, h) && e.IsEpoch(h.number)
    ensures CheckpointSnapshot(h).Ok?
  {
    WholeListIsCheckpoint(h);
  }

  lemma WholeListIsCheckpoint(h: Header)
    requires |h.extra| > EXTRA_VANITY + EXTRA_SEAL
    requires (|h.extra| - EXTRA_VANITY - EXTRA_SEAL) % ADDRESS_LENGTH == 0
    ensures CheckpointSnapshot(h).Ok?
  {
    assert |SignerSection(h.extra)| == |h.extra| - EXTRA_VANITY - EXTRA_SEAL;
  }

  /** Block `num` of `p` replays from genesis and its checkpoint is well formed. */
  ghost predicate Computable(e: Engine, g: Header, p: seq<Hash>, num: nat) {
    && num < |p| && Rooted(g, p[num]) && StateAt(e, g, p[num]).Ok?
    && var start := num / e.epoch * e.epoch;
    start <= num && p[start].HashOf? && CheckpointSnapshot(p[start].header).Ok?
  }

  lemma EpochStart(e: Engine, num: nat)
    ensures num / e.epoch * e.epoch <= num && e.IsEpoch(num / e.epoch * e.epoch)
  {
    var q := num / e.epoch;
    QuotientIsUnique(q * e.epoch, e.epoch, q, 0);
  }

  lemma VerifiedIsComputable(e: Engine, g: Header, p: seq<Hash>, num: nat)
    requires IsPath(g, p) && num < |p| && Verified(e, g, p[num])
    ensures Computable(e, g, p, num)
  {
    EpochStart(e, num);
    var start := num / e.epoch * e.epoch;
    AncestorIsVerified(e, g, p, num, start);
    assert Follower(g, p, start);
    VerifiedCheckpoint(e, g, p[start]);
    VerifiedFacts(e, g, p[num]);
  }

  // ----- The cache

  /** The entry at `k` is the snapshot of canonical block `k`. */
  ghost predicate EntryOk(e: Engine, g: Header, p: seq<Hash>, k: nat, snap: Snapshot) {
    && e.IsEpoch(k)
    && k < |p|
    && snap.number == k
    && snap.hash == p[k]
    && Faithful(e, g, snap)
  }

  /** What coherence claims, one claim per cached snapshot.  Coherent quantifies over the claims, so
      that a proof that only passes the cache along does not open them. */
  datatype Claim = OnPath | GenesisOk | HeadOk | EpochEntry(k: nat)

  ghost predicate IsMet(
      c: Claim, e: Engine, g: Header, p: seq<Hash>, headSnap: Snapshot, epochSnaps: map<nat, Snapshot>)
  {
    match c
    case OnPath => IsPath(g, p)
    case GenesisOk => CheckpointSnapshot(g).Ok?
    case HeadOk => Faithful(e, g, headSnap)
    case EpochEntry(k) => k in epochSnaps ==> EntryOk(e, g, p, k, epochSnaps[k])
  }

  ghost predicate Coherent(e: Engine, g: Header, p: seq<Hash>, headSnap: Snapshot, epochSnaps: map<nat, Snapshot>) {
    forall c: Claim :: IsMet(c, e, g, p, headSnap, epochSnaps)
  }

  lemma CoherentFacts(e: Engine, g: Header, p: seq<Hash>, headSnap: Snapshot, epochSnaps: map<nat, Snapshot>)
    requires Coherent(e, g, p, headSnap, epochSnaps)
    ensures IsPath(g, p) && CheckpointSnapshot(g).Ok? && Faithful(e, g, headSnap)
  {
    assert IsMet(OnPath, e, g, p, headSnap, epochSnaps) && IsMet(GenesisOk, e, g, p, headSnap, epochSnaps);
    assert IsMet(HeadOk, e, g, p, headSnap, epochSnaps);
  }

  lemma CoherentWithEntry(e: Engine, g: Header, p: seq<Hash>, headSnap: Snapshot, epochSnaps: map<nat, Snapshot>,
                          k: nat, snap: Snapshot)
    requires Coherent(e, g, p, headSnap, epochSnaps) && EntryOk(e, g, p, k, snap)
    ensures Coherent(e, g, p, headSnap, epochSnaps[k := snap])
  {
    var entries := epochSnaps[k := snap];
    forall c: Claim
      ensures IsMet(c, e, g, p, headSnap, entries)
    {
      assert IsMet(c, e, g, p, headSnap, epochSnaps);
    }
  }

  /** Replacing the head snapshot, and the epoch entry if it is one, by a faithful snapshot of a
      block on the chain. */
  lemma CoherentWithSnap(e: Engine, g: Header, p: seq<Hash>, headSnap: Snapshot, epochSnaps: map<nat, Snapshot>,
                         snap: Snapshot)
    requires Coherent(e, g, p, headSnap, epochSnaps) && Faithful(e, g, snap)
    requires snap.number < |p| && snap.hash == p[snap.number]
    ensures Coherent(e, g, p, snap, Cache(e, epochSnaps, snap))
  {
    CoherentWithHead(e, g, p, headSnap, epochSnaps, snap);
    if e.IsEpoch(snap.number) {
      CoherentWithEntry(e, g, p, snap, epochSnaps, snap.number, snap);
    }
  }

  /** The epoch entries once `snap` has become the head snapshot. */
  function Cache(e: Engine, epochSnaps: map<nat, Snapshot>, snap: Snapshot): map<nat, Snapshot> {
    if e.IsEpoch(snap.number) then epochSnaps[snap.number := snap] else epochSnaps
  }

  lemma CoherentWithHead(e: Engine, g: Header, p: seq<Hash>, headSnap: Snapshot, epochSnaps: map<nat, Snapshot>,
                         snap: Snapshot)
    requires Coherent(e, g, p, headSnap, epochSnaps) && Faithful(e, g, snap)
    ensures Coherent(e, g, p, snap, epochSnaps)
  {
    forall c: Claim
      ensures IsMet(c, e, g, p, snap, epochSnaps)
    {
      assert IsMet(c, e, g, p, headSnap, epochSnaps);
    }
  }

  /** With no epoch entries, any chain will do. */
  lemma CoherentWithoutEntries(e: Engine, g: Header, p: seq<Hash>, headSnap: Snapshot)
    requires IsPath(g, p) && CheckpointSnapshot(g).Ok? && Faithful(e, g, headSnap)
    ensures Coherent(e, g, p, headSnap, map[])
  {
  }

  /** Extending the canonical chain keeps every entry in place. */
  lemma CoherentExtends(
      e: Engine, g: Header, p: seq<Hash>, q: seq<Hash>, headSnap: Snapshot, epochSnaps: map<nat, Snapshot>)
    requires Coherent(e, g, p, headSnap, epochSnaps) && IsPath(g, q) && p <= q
    ensures Coherent(e, g, q, headSnap, epochSnaps)
  {
    CoherentFacts(e, g, p, headSnap, epochSnaps);
    forall c: Claim
      ensures IsMet(c, e, g, q, headSnap, epochSnaps)
    {
      assert IsMet(c, e, g, p, headSnap, epochSnaps);
    }
  }

  // ----- When the canonical chain moves

  /** No entry is numbered above `n`. */
  ghost predicate AllBelow(epochSnaps: map<nat, Snapshot>, n: int) {
    forall k :: k in epochSnaps ==> k <= n
  }

  /** Moving to another chain without touching the cache keeps it coherent exactly if no entry is
      above the fork. */
  lemma CoherentIffBelowFork(
      e: Engine, g: Header, p: seq<Hash>, q: seq<Hash>, headSnap: Snapshot, epochSnaps: map<nat, Snapshot>)
    requires Coherent(e, g, p, headSnap, epochSnaps) && IsPath(g, q)
    ensures Coherent(e, g, q, headSnap, epochSnaps) <==> AllBelow(epochSnaps, Fork(p, q))
  {
    CoherentFacts(e, g, p, headSnap, epochSnaps);
    if AllBelow(epochSnaps, Fork(p, q)) {
      PathsMeet(g, p, q, Fork(p, q));
      forall c: Claim
        ensures IsMet(c, e, g, q, headSnap, epochSnaps)
      {
        assert IsMet(c, e, g, p, headSnap, epochSnaps);
        assert c.EpochEntry? && c.k in epochSnaps ==> p[..Fork(p, q) + 1][c.k] == q[..Fork(p, q) + 1][c.k];
      }
    } else {
      var k :| k in epochSnaps && k > Fork(p, q);
      EntryAboveFork(e, g, p, q, headSnap, epochSnaps, epochSnaps, k);
    }
  }

  /** An entry above the fork makes any cache that still holds it incoherent with the new chain. */
  lemma EntryAboveFork(e: Engine, g: Header, p: seq<Hash>, q: seq<Hash>, headSnap: Snapshot,
                       epochSnaps: map<nat, Snapshot>, later: map<nat, Snapshot>, k: nat)
    requires Coherent(e, g, p, headSnap, epochSnaps) && k in epochSnaps && k > Fork(p, q)
    requires k in later && later[k] == epochSnaps[k]
    ensures forall snap :: !Coherent(e, g, q, snap, later)
  {
    assert IsMet(EpochEntry(k), e, g, p, headSnap, epochSnaps);
    forall snap
      ensures !Coherent(e, g, q, snap, later)
    {
      assert !IsMet(EpochEntry(k), e, g, q, snap, later);
    }
  }
}

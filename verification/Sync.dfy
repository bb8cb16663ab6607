/**
 Catching up with a peer.  The provider answers a request with blocks of its canonical chain; the
 requester imports them, after going back to genesis if the provider says that the chains diverge.
 */
module Sync {
  import opened Primitives
  import opened Clique
  import opened ForkTree
  import opened ForkChoice
  import opened SnapshotCache
  import opened Node

  const MAX_SYNC_BLOCKS: nat := 2048

  datatype Request = Request(headNumber: nat, headHash: Hash)

  datatype Response = Response(reset: bool, blocks: seq<Record>)

  // ----- What a response should be, in terms of the provider's chain `q`

  ghost predicate Diverges(q: seq<Hash>, req: Request) {
    req.headNumber != 0 && !(req.headNumber < |q| && q[req.headNumber] == req.headHash)
  }

  ghost function FirstWanted(q: seq<Hash>, req: Request): nat {
    if req.headNumber == 0 || Diverges(q, req) then 1 else req.headNumber + 1
  }

  ghost function BatchSize(length: nat, first: nat): nat {
    if length <= first then 0 else if length - first > MAX_SYNC_BLOCKS then MAX_SYNC_BLOCKS else length - first
  }

  /** The blocks are those of `q` from position `first` on. */
  ghost predicate AreBlocks(q: seq<Hash>, first: nat, blocks: seq<Record>) {
    first + |blocks| <= |q| && forall i :: 0 <= i < |blocks| ==> IsBlockAt(q, first, blocks, i)
  }

  ghost predicate IsBlockAt(q: seq<Hash>, first: nat, blocks: seq<Record>, i: nat)
    requires i < |blocks|
  {
    first + i < |q| && HashOf(blocks[i].header) == q[first + i]
  }

  ghost predicate Answers(q: seq<Hash>, req: Request, resp: Response) {
    && resp.reset == Diverges(q, req)
    && |resp.blocks| == BatchSize(|q|, FirstWanted(q, req))
    && (resp.blocks != [] ==> AreBlocks(q, FirstWanted(q, req), resp.blocks))
  }

  /** `r` is sent as it is stored. */
  ghost predicate AsStored(elHashes: map<Hash, Hash>, payloads: map<Hash, seq<byte>>, r: Record) {
    var hash := HashOf(r.header);
    && hash in elHashes && r.elHash == elHashes[hash]
    && r.payload == if hash in payloads then payloads[hash] else []
  }

  /** The blocks of chain `q` numbered `start` to `end`, as stored. */
  method Collect(stor: Store, start: nat, end: nat, ghost q: seq<Hash>) returns (blocks: seq<Record>)
    requires Chain(stor.blocks, q) && IsIndex(stor.numbers, q)
    requires forall h :: h in stor.blocks ==> h in stor.elHashes
    ensures |blocks| == RangeSize(|q|, start, end)
    ensures blocks != [] ==> AreBlocks(q, start, blocks)
    ensures forall i :: 0 <= i < |blocks| ==> AsStored(stor.elHashes, stor.payloads, blocks[i])
  {
    var headers, els := stor.BlocksInRange(start, end, q);
    blocks := [];
    for i := 0 to |headers|
      invariant |blocks| == i
      invariant forall k :: 0 <= k < i ==> start + k < |q| && HashOf(blocks[k].header) == q[start + k]
      invariant forall k :: 0 <= k < i ==> AsStored(stor.elHashes, stor.payloads, blocks[k])
    {
      var hash := HashOf(headers[i]);
      assert stor.Listed(q, start + i, headers[i], els[i]);
      var payload := if hash in stor.payloads then stor.payloads[hash] else [];
      blocks := blocks + [Record(headers[i], els[i], payload)];
    }
  }

  /** Whether the requester has to start over, and the first block it is sent. */
  method Locate(stor: Store, req: Request, ghost q: seq<Hash>) returns (reset: bool, start: nat)
    requires Chain(stor.blocks, q) && IsIndex(stor.numbers, q)
    ensures reset == Diverges(q, req) && start == FirstWanted(q, req)
  {
    if req.headNumber == 0 {
      return false, 1;
    }
    var canonical := stor.GetByNumber(req.headNumber);
    if req.headNumber < |q| {
      OnChain(stor.blocks, q, req.headNumber);
    }
    if canonical == None || HashOf(canonical.value) != req.headHash {
      return true, 1;
    }
    return false, req.headNumber + 1;
  }

  method HandleSyncRequest(stor: Store, req: Request, ghost q: seq<Hash>) returns (resp: Response)
    requires stor.Sound() && q == Canon(stor.genesis.header, stor.log)
    ensures Answers(q, req, resp)
    ensures forall i :: 0 <= i < |resp.blocks| ==> AsStored(stor.elHashes, stor.payloads, resp.blocks[i])
  {
    CanonIsStored(stor.genesis.header, stor.epoch, stor.log, stor.View());
    var reset, start := Locate(stor, req, q);
    var end := stor.head.header.number;
    if end < start {
      return Response(reset, []);
    }
    if end - start + 1 > MAX_SYNC_BLOCKS {
      end := start + MAX_SYNC_BLOCKS - 1;
    }
    var blocks := Collect(stor, start, end, q);
    return Response(reset, blocks);
  }

  // ----- The requester

  /** Back to genesis: the journal, the store and the snapshot cache. */
  method ResetChain(n: Node, ghost g: Header)
    requires n.Standing() && g == n.genesisHeader
    modifies n, n.stor, n.stor.db
    ensures n.Valid() && n.Standing() && n.stor.db == old(n.stor.db)
    ensures n.stor.log == [] && n.headSnap == n.genesisSnap && n.epochSnaps == map[]
  {
    if n.stor.db != null {
      n.stor.db.Truncate();
    }
    n.stor.Reset(n.genesisHeader);
    n.headSnap := n.genesisSnap;
    n.epochSnaps := map[];
    GenesisIsFaithful(n.eng, g);
    PathFollows(g, HashOf(g));
  }

  /** The execution client has no objection to the block. */
  predicate Accepted(el: seq<byte> -> bool, r: Record) {
    |r.payload| == 0 || el(r.payload)
  }

  ghost predicate AllVerified(e: Engine, g: Header, q: seq<Hash>) {
    forall h :: h in q ==> Verified(e, g, h)
  }

  // ----- Importing one block: the cache

  /** When importing a block leaves the cache coherent.  `p` and `q` are the canonical chain before
      and after, `headSnap` and `cached` the cache when the block is stored.  The import caches its
      own snapshot only at an epoch boundary, and that one is off the chain only when it extends
      the head snapshot on a side branch. */
  ghost predicate KeepsCache(e: Engine, p: seq<Hash>, q: seq<Hash>, headSnap: Snapshot,
                             cached: map<nat, Snapshot>, header: Header, ok: bool)
  {
    if ok && e.IsEpoch(header.number) && Extends(headSnap, header)
    then AllBelow(cached - {header.number}, Fork(p, q)) && IsCanonical(q, header)
    else AllBelow(cached, Fork(p, q))
  }

  /** What computing the snapshot of `header` on the new chain did, in terms of the cache before. */
  ghost predicate Computed(e: Engine, g: Header, p: seq<Hash>, q: seq<Hash>, headSnap: Snapshot,
                           cached: map<nat, Snapshot>, mid: map<nat, Snapshot>, header: Header,
                           r: Result<Snapshot, SnapshotError>)
  {
    && (forall k :: k in cached ==> k in mid && mid[k] == cached[k])
    && (r.Ok? ==> r.value.number == header.number)
    && (Extends(headSnap, header) ==>
          && mid == cached && (r.Ok? <==> Step(e, headSnap, header).Ok?)
          && (r.Ok? ==> r.value == Step(e, headSnap, header).value))
    && (!Extends(headSnap, header) && e.IsEpoch(header.number) && header.number in cached ==>
          r == Ok(cached[header.number]))
    && (AllBelow(cached, Fork(p, q)) ==>
          && Coherent(e, g, q, headSnap, mid)
          && (r.Ok? ==> Faithful(e, g, r.value))
          && (r.Ok? && !Extends(headSnap, header) ==> header.number < |q| && r.value.hash == q[header.number]))
  }

  /** The cache once the computed snapshot, if there is one, has been installed. */
  ghost predicate IsCoherentAfter(e: Engine, g: Header, q: seq<Hash>, headSnap: Snapshot, mid: map<nat, Snapshot>,
                                  r: Result<Snapshot, SnapshotError>)
  {
    if r.Ok? then Coherent(e, g, q, r.value, Cache(e, mid, r.value)) else Coherent(e, g, q, headSnap, mid)
  }

  lemma FewerEntries(e: Engine, g: Header, p: seq<Hash>, headSnap: Snapshot, cached: map<nat, Snapshot>, num: nat)
    requires Coherent(e, g, p, headSnap, cached)
    ensures Coherent(e, g, p, headSnap, cached - {num})
  {
    var fewer := cached - {num};
    forall c: Claim
      ensures IsMet(c, e, g, p, headSnap, fewer)
    {
      assert IsMet(c, e, g, p, headSnap, cached);
    }
  }

  /** The case where the import overwrites an epoch entry with a new snapshot. */
  lemma OverwritingKeepsIff(e: Engine, g: Header, p: seq<Hash>, q: seq<Hash>, headSnap: Snapshot,
                            cached: map<nat, Snapshot>, header: Header)
    requires Coherent(e, g, p, headSnap, cached) && IsPath(g, q)
    requires e.IsEpoch(header.number) && Extends(headSnap, header) && Step(e, headSnap, header).Ok?
    ensures
      var snap := Step(e, headSnap, header).value;
      Coherent(e, g, q, snap, cached[header.number := snap]) <==>
        AllBelow(cached - {header.number}, Fork(p, q)) && IsCanonical(q, header)
  {
    var num, snap, rest := header.number, Step(e, headSnap, header).value, cached - {header.number};
    CoherentFacts(e, g, p, headSnap, cached);
    ChildIsFaithful(e, g, headSnap, header);
    StepNames(e, headSnap, header);
    FewerEntries(e, g, p, headSnap, cached, num);
    CoherentIffBelowFork(e, g, p, q, headSnap, rest);
    assert rest[num := snap] == cached[num := snap];
    if !AllBelow(rest, Fork(p, q)) {
      var k :| k in rest && k > Fork(p, q);
      EntryAboveFork(e, g, p, q, headSnap, rest, cached[num := snap], k);
    } else if IsCanonical(q, header) {
      CoherentWithSnap(e, g, q, headSnap, rest, snap);
    } else {
      assert !IsMet(EpochEntry(num), e, g, q, snap, cached[num := snap]);
    }
  }

  lemma ImportKeepsIff(e: Engine, g: Header, p: seq<Hash>, q: seq<Hash>, headSnap: Snapshot,
                       cached: map<nat, Snapshot>, mid: map<nat, Snapshot>, header: Header,
                       r: Result<Snapshot, SnapshotError>)
    requires Coherent(e, g, p, headSnap, cached) && IsPath(g, q)
    requires Computed(e, g, p, q, headSnap, cached, mid, header, r)
    ensures IsCoherentAfter(e, g, q, headSnap, mid, r) <==> KeepsCache(e, p, q, headSnap, cached, header, r.Ok?)
  {
    if r.Ok? && e.IsEpoch(header.number) && Extends(headSnap, header) {
      OverwritingKeepsIff(e, g, p, q, headSnap, cached, header);
    } else if AllBelow(cached, Fork(p, q)) {
      if r.Ok? {
        if Extends(headSnap, header) {
          CoherentWithHead(e, g, q, headSnap, mid, r.value);
        } else {
          CoherentWithSnap(e, g, q, headSnap, mid, r.value);
        }
      }
    } else {
      var k :| k in cached && k > Fork(p, q);
      EntryAboveFork(e, g, p, q, headSnap, cached, if r.Ok? then Cache(e, mid, r.value) else mid, k);
    }
  }

  lemma SiblingTakesHead(g: Header, r: Record, r': Record)
    requires g.number == 0 && r.header.parentHash == HashOf(g) == r'.header.parentHash
    requires r.header.number == r'.header.number == 1 && 0 < r.header.difficulty < r'.header.difficulty
    ensures IsLog(g, [r]) && IsLog(g, [r, r'])
    ensures Canon(g, [r]) == [HashOf(g), HashOf(r.header)] && Canon(g, [r, r']) == [HashOf(g), HashOf(r'.header)]
  {
    assert [] + [r] == [r] && [r] + [r'] == [r, r'];
    assert Path(g, HashOf(g)) == [HashOf(g)];
    BestNext(g, [], r);
    BestNext(g, [r], r');
  }

  /** A reorganisation past an epoch boundary: the cache fits the chain of the first child of
      genesis, and no longer fits once a heavier sibling has taken the head. */
  lemma ReorganisationStalesCache(e: Engine, g: Header, r: Record, r': Record)
    requires g.number == 0 && CheckpointSnapshot(g).Ok? && e.epoch == 1
    requires r.header.parentHash == HashOf(g) == r'.header.parentHash && r.header.number == r'.header.number == 1
    requires 0 < r.header.difficulty < r'.header.difficulty && CheckpointSnapshot(r.header).Ok?
    ensures
      var snap := CheckpointSnapshot(r.header).value;
      && IsLog(g, [r]) && IsLog(g, [r, r'])
      && Coherent(e, g, Canon(g, [r]), snap, map[1 := snap])
      && !Coherent(e, g, Canon(g, [r, r']), snap, map[1 := snap])
  {
    var snap, h := CheckpointSnapshot(r.header).value, HashOf(r.header);
    SiblingTakesHead(g, r, r');
    PathFollows(g, h);
    CheckpointIsFaithful(e, g, h);
    CoherentWithoutEntries(e, g, Canon(g, [r]), snap);
    CoherentWithEntry(e, g, Canon(g, [r]), snap, map[], 1, snap);
    assert (map[])[1 := snap] == map[1 := snap];
    assert !IsMet(EpochEntry(1), e, g, Canon(g, [r, r']), snap, map[1 := snap]);
  }

  // ----- Importing one block

  /** Stores a block that passed the checks.  Nothing is dropped from the cache. */
  method StoreSynced(n: Node, r: Record, ghost g: Header)
    requires n.Standing() && g == n.genesisHeader && r.header.parentHash in n.stor.blocks && Numbered(r.header)
    modifies n.stor, n.stor.db
    ensures n.Standing() && n.stor.db == old(n.stor.db)
    ensures n.stor.log == Submit(g, old(n.stor.log), r)
  {
    var headChanged, depth, err := n.stor.AddBlock(r.header, r.elHash, r.payload);
  }

  /** Computes the snapshot of the block just stored. */
  method ComputeStored(
      n: Node, header: Header, ghost g: Header, ghost p: seq<Hash>, ghost q: seq<Hash>, ghost sound: bool)
    returns (r: Result<Snapshot, SnapshotError>)
    requires n.Standing() && g == n.genesisHeader && q == Canon(g, n.stor.log) && (sound ==> n.Cached(p))
    modifies n`epochSnaps
    ensures n.Named() && IsPath(g, q)
    ensures r.Ok? ==> r.value.number == header.number
    ensures sound ==> Computed(n.eng, g, p, q, n.headSnap, old(n.epochSnaps), n.epochSnaps, header, r)
    ensures sound && AllBelow(old(n.epochSnaps), Fork(p, q)) && WillCompute(n.eng, g, q, header) ==> r.Ok?
  {
    CanonIsStored(g, n.stor.epoch, n.stor.log, n.stor.View());
    PathFollows(g, Best(g, n.stor.log));
    if sound {
      CoherentIffBelowFork(n.eng, g, p, q, n.headSnap, n.epochSnaps);
    }
    if WillCompute(n.eng, g, q, header) {
      VerifiedIsComputable(n.eng, g, q, header.number);
    }
    r := n.ComputeSnapshot(header, q, sound && AllBelow(n.epochSnaps, Fork(p, q)));
  }

  /** A verified block of the chain. */
  ghost predicate WillCompute(e: Engine, g: Header, q: seq<Hash>, header: Header) {
    IsCanonical(q, header) && Verified(e, g, HashOf(header))
  }

  /** Computes and installs the snapshot of the block just stored.  The cache was coherent with `p`;
      whether it is now coherent with the canonical chain is decided by KeepsCache. */
  method Track(n: Node, header: Header, ghost g: Header, ghost p: seq<Hash>, ghost q: seq<Hash>, ghost sound: bool)
    returns (ok: bool)
    requires n.Standing() && g == n.genesisHeader && q == Canon(g, n.stor.log) && (sound ==> n.Cached(p))
    modifies n`headSnap, n`epochSnaps
    ensures n.Named()
    ensures if ok then n.headSnap.number == header.number else n.headSnap == old(n.headSnap)
    ensures sound ==> IsTracked(n.eng, old(n.headSnap), header, ok, n.headSnap)
    ensures sound && ok && AllBelow(old(n.epochSnaps), Fork(p, q)) && IsCanonical(q, header) ==>
      n.headSnap.hash == HashOf(header)
    ensures sound ==> (n.Cached(q) <==> KeepsCache(n.eng, p, q, old(n.headSnap), old(n.epochSnaps), header, ok))
    ensures sound && AllBelow(old(n.epochSnaps), Fork(p, q)) && WillCompute(n.eng, g, q, header) ==> ok
  {
    ghost var cached := n.epochSnaps;
    var next := ComputeStored(n, header, g, p, q, sound);
    if sound {
      ImportKeepsIff(n.eng, g, p, q, n.headSnap, cached, n.epochSnaps, header, next);
      ComputedNames(n.eng, g, p, q, n.headSnap, cached, n.epochSnaps, header, next);
    }
    if next.Err? {
      return false;
    }
    n.SetHeadSnapshot(next.value, q);
    return true;
  }

  /** A block that extends the head snapshot is tracked exactly if it can be applied to it. */
  ghost predicate IsTracked(e: Engine, oldSnap: Snapshot, header: Header, ok: bool, newSnap: Snapshot) {
    Extends(oldSnap, header) ==>
      (ok <==> Step(e, oldSnap, header).Ok?) && (ok ==> newSnap == Step(e, oldSnap, header).value)
  }

  lemma ComputedNames(e: Engine, g: Header, p: seq<Hash>, q: seq<Hash>, headSnap: Snapshot,
                      cached: map<nat, Snapshot>, mid: map<nat, Snapshot>, header: Header,
                      r: Result<Snapshot, SnapshotError>)
    requires Computed(e, g, p, q, headSnap, cached, mid, header, r)
    ensures r.Ok? && AllBelow(cached, Fork(p, q)) && IsCanonical(q, header) ==> r.value.hash == HashOf(header)
  {
    if r.Ok? && Extends(headSnap, header) {
      StepNames(e, headSnap, header);
    }
  }

  /** Imports one block.  Whatever the block, the store stays right, and the block is stored exactly if
      the checks and the execution client admit it.  If the cache was coherent, it still is exactly
      when KeepsCache says so. */
  method ImportBlock(n: Node, r: Record, el: seq<byte> -> bool, ghost g: Header, ghost p: seq<Hash>, ghost sound: bool)
    returns (ok: bool, ghost stored: bool, ghost cached: map<nat, Snapshot>, ghost check: Check)
    requires n.Standing() && g == n.genesisHeader && p == Canon(g, n.stor.log) && (sound ==> n.Cached(p))
    requires r.header.parentHash in n.stor.blocks ==> Numbered(r.header)
    modifies n, n.stor, n.stor.db
    ensures n.Standing() && n.stor.db == old(n.stor.db) && (ok ==> stored)
    ensures check == Check(n.eng, g, p, old(n.stor.blocks), n.genesisSnap, old(n.headSnap), r.header,
                           check.snap, check.refusal)
    ensures IsChecked(check, sound) && (stored <==> check.refusal == None && Accepted(el, r))
    ensures n.stor.log == if stored then Submit(g, old(n.stor.log), r) else old(n.stor.log)
    ensures if ok then n.headSnap.number == r.header.number else n.headSnap == old(n.headSnap)
    ensures sound && stored ==> IsTracked(n.eng, old(n.headSnap), r.header, ok, n.headSnap)
    ensures AddsForParent(n.eng, old(n.epochSnaps), cached, r.header)
    ensures sound ==>
      (n.Cached(Canon(g, n.stor.log)) <==>
        KeepsCache(n.eng, p, Canon(g, n.stor.log), old(n.headSnap), cached, r.header, ok))
    ensures sound ==> AllBelow(cached, |p| - 1)
    ensures sound && stored && AllBelow(cached, Fork(p, Canon(g, n.stor.log))) ==>
      && (WillCompute(n.eng, g, Canon(g, n.stor.log), r.header) ==> ok)
      && (ok && IsCanonical(Canon(g, n.stor.log), r.header) ==> n.headSnap.hash == HashOf(r.header))
  {
    ok, stored := false, false;
    ghost var blocks := n.stor.blocks;
    ghost var snap;
    var refusal;
    refusal, snap := n.CheckBlock(r.header, g, p, sound);
    cached := n.epochSnaps;
    check := Check(n.eng, g, p, blocks, n.genesisSnap, n.headSnap, r.header, snap, refusal);
    if sound {
      CoherentBelowTip(n.eng, g, p, n.headSnap, cached);
    }
    if refusal.Some? {
      return;
    }
    if |r.payload| > 0 && !el(r.payload) {
      return;
    }
    StoreSynced(n, r, g);
    stored := true;
    ok := Track(n, r.header, g, p, Canon(g, n.stor.log), sound);
  }

  /** Every entry of a coherent cache is on the chain, so none is above the chain's fork with itself. */
  lemma CoherentBelowTip(e: Engine, g: Header, p: seq<Hash>, headSnap: Snapshot, cached: map<nat, Snapshot>)
    requires Coherent(e, g, p, headSnap, cached)
    ensures AllBelow(cached, Fork(p, p)) && AllBelow(cached, |p| - 1)
  {
    CoherentFacts(e, g, p, headSnap, cached);
    CoherentIffBelowFork(e, g, p, p, headSnap, cached);
  }

  // ----- Importing along one chain

  /** A block on top of the chain, or no change at all, never stales the cache. */
  lemma AlongKeepsCache(e: Engine, p: seq<Hash>, q: seq<Hash>, headSnap: Snapshot, cached: map<nat, Snapshot>,
                        header: Header, ok: bool)
    requires p != [] && AllBelow(cached, |p| - 1)
    requires (q == p && !ok) || (q == p + [HashOf(header)] && header.number == |p|)
    ensures KeepsCache(e, p, q, headSnap, cached, header, ok) && AllBelow(cached, Fork(p, q))
  {
    assert p[|p| - 1] == q[|p| - 1];
    assert Fork(p, q) == |p| - 1;
  }

  lemma BlockOfPath(e: Engine, g: Header, q: seq<Hash>, k: nat, h: Header)
    requires IsPath(g, q) && 0 < k < |q| && HashOf(h) == q[k]
    ensures Numbered(h) && h.number == k && h.parentHash == q[k - 1] && IsPath(g, q[..k])
    ensures q[..k + 1] == q[..k] + [q[k]]
    ensures Verified(e, g, q[k]) ==> Expected(e, g, q[..k], h) && WillCompute(e, g, q[..k + 1], h)
    ensures IsCanonical(q[..k + 1], h)
  {
    assert Follower(g, q, k) && Follower(g, q, k - 1);
    forall i | 0 <= i < k
      ensures Follower(g, q[..k], i)
    {
      assert Follower(g, q, i);
    }
  }

  lemma PassedIsPositive(e: Engine, g: Header, p: seq<Hash>, header: Header)
    requires PassesCheck(e, g, p, header)
    ensures header.difficulty > 0
  {
  }

  /** The response holds blocks of `q` right above the requester's chain, which is the first `k`. */
  ghost predicate IsAlong(n: Node, g: Header, q: seq<Hash>, k: nat, blocks: seq<Record>)
    reads n, n.stor, n.stor.db
  {
    && n.Valid() && g == n.genesisHeader
    && IsPath(g, q) && k > 0 && AreBlocks(q, k, blocks) && Canon(g, n.stor.log) == q[..k]
  }

  /** The import stops at block `f` of `q`, which is not verified or whose payload is not accepted, with
      all blocks before it imported. */
  ghost predicate StopsAt(e: Engine, g: Header, el: seq<byte> -> bool, q: seq<Hash>, k: nat, blocks: seq<Record>,
                          m: nat, f: nat)
  {
    && k <= f < |q| && f < k + |blocks| && f <= m <= f + 1
    && !(Verified(e, g, q[f]) && Accepted(el, blocks[f - k]))
  }

  /** One block of a response, along chain `q` or not. */
  method ImportOne(n: Node, r: Record, el: seq<byte> -> bool,
                      ghost g: Header, ghost q: seq<Hash>, ghost k: nat, ghost along: bool)
    returns (ok: bool, ghost m: nat)
    requires n.Standing() && g == n.genesisHeader && (along || Numbered(r.header))
    requires along ==> IsPath(g, q) && 0 < k < |q| && HashOf(r.header) == q[k]
    requires along ==> n.Cached(Canon(g, n.stor.log)) && Canon(g, n.stor.log) == q[..k]
    modifies n, n.stor, n.stor.db
    ensures n.Standing() && n.stor.db == old(n.stor.db)
    ensures k <= m <= k + 1 && (ok ==> m == k + 1)
    ensures along ==> n.Cached(Canon(g, n.stor.log)) && Canon(g, n.stor.log) == q[..m]
    ensures along && ok ==> n.headSnap.hash == q[k]
    ensures along && !ok ==> !(Verified(n.eng, g, q[k]) && Accepted(el, r))
  {
    ghost var log, headSnap, p := n.stor.log, n.headSnap, Canon(g, n.stor.log);
    if along {
      BlockOfPath(n.eng, g, q, k, r.header);
    }
    ghost var stored, cached, check;
    ok, stored, cached, check := ImportBlock(n, r, el, g, p, along);
    m := if stored then k + 1 else k;
    if along {
      CheckFacts(check);
      if stored {
        PassedIsPositive(n.eng, g, p, r.header);
        assert q[..k][k - 1] == Best(g, log);
        ChildTakesHead(g, log, r);
      }
      AlongKeepsCache(n.eng, p, Canon(g, n.stor.log), headSnap, cached, r.header, ok);
    }
  }

  lemma NextIsAlong(g: Header, q: seq<Hash>, k: nat, blocks: seq<Record>, i: nat)
    requires IsPath(g, q) && k > 0 && AreBlocks(q, k, blocks) && i < |blocks|
    ensures 0 < k + i < |q| && HashOf(blocks[i].header) == q[k + i]
  {
    assert IsBlockAt(q, k, blocks, i);
  }

  /** Imports a sync response, up to the first block that fails.  Whatever the response, the store
      stays right.  A response along chain `q` moves the requester along `q`, with a coherent cache. */
  method ImportSyncBlocks(n: Node, blocks: seq<Record>, el: seq<byte> -> bool,
                          ghost g: Header, ghost q: seq<Hash>, ghost k: nat, ghost along: bool)
    returns (ok: bool, ghost m: nat, ghost f: nat)
    requires n.Standing() && g == n.genesisHeader && (along ==> IsAlong(n, g, q, k, blocks))
    requires along || forall r :: r in blocks ==> Numbered(r.header)
    modifies n, n.stor, n.stor.db
    ensures n.Standing() && n.stor.db == old(n.stor.db)
    ensures along ==> n.Cached(Canon(g, n.stor.log))
    ensures along ==> k <= m <= k + |blocks| && Canon(g, n.stor.log) == q[..m] && (ok ==> m == k + |blocks|)
    ensures along && ok && blocks != [] ==> n.headSnap.hash == q[m - 1]
    ensures along && !ok ==> StopsAt(n.eng, g, el, q, k, blocks, m, f)
  {
    ok, m, f := true, k, k;
    var i := 0;
    while ok && i < |blocks|
      invariant i <= |blocks| && n.Standing() && n.stor.db == old(n.stor.db)
      invariant ok ==> m == k + i
      invariant along ==> n.Cached(Canon(g, n.stor.log))
      invariant along ==> Stands(n.eng, g, Canon(g, n.stor.log), n.headSnap.hash, q, k, blocks, el, i, ok, m, f)
    {
      f := k + i;
      if along {
        NextIsAlong(g, q, k, blocks, i);
      }
      ok, m := ImportOne(n, blocks[i], el, g, q, f, along);
      if along {
        StandsNext(n.eng, g, Canon(g, n.stor.log), n.headSnap.hash, q, k, blocks, el, i, ok, m, f);
      }
      i := i + 1;
    }
  }

  /** Where an import along `q` stands after `i` blocks: the canonical chain, and the block the head
      snapshot is of. */
  ghost predicate Stands(e: Engine, g: Header, c: seq<Hash>, top: Hash, q: seq<Hash>, k: nat, blocks: seq<Record>,
                         el: seq<byte> -> bool, i: nat, ok: bool, m: nat, f: nat)
  {
    && k <= m <= k + i && m <= |q| && c == q[..m]
    && (ok ==> m == k + i && (i > 0 ==> top == q[m - 1]))
    && (!ok ==> StopsAt(e, g, el, q, k, blocks, m, f))
  }

  lemma StandsNext(e: Engine, g: Header, c: seq<Hash>, top: Hash, q: seq<Hash>, k: nat, blocks: seq<Record>,
                   el: seq<byte> -> bool, i: nat, ok: bool, m: nat, f: nat)
    requires i < |blocks| && f == k + i < |q| && f <= m <= f + 1 && c == q[..m]
    requires if ok then m == f + 1 && top == q[f] else !(Verified(e, g, q[f]) && Accepted(el, blocks[i]))
    ensures Stands(e, g, c, top, q, k, blocks, el, i + 1, ok, m, f)
  {
  }

  // ----- The whole exchange

  /** A chain asks from its tip: the answer diverges exactly if it is not a prefix of the provider's. */
  lemma RequestFromTip(g: Header, q: seq<Hash>, c: seq<Hash>)
    requires IsPath(g, q) && IsPath(g, c)
    ensures Diverges(q, Tip(c)) <==> !(c <= q)
    ensures FirstWanted(q, Tip(c)) == if c <= q then |c| else 1
  {
    if |c| <= |q| && q[|c| - 1] == c[|c| - 1] {
      PathsMeet(g, c, q, |c| - 1);
    }
  }

  ghost function Tip(c: seq<Hash>): Request
    requires c != []
  {
    Request(|c| - 1, c[|c| - 1])
  }

  /** How far chain `c` is behind `q`; worse than genesis when it has to start over. */
  ghost function Behind(c: seq<Hash>, q: seq<Hash>): nat {
    if c <= q then |q| - |c| else |q| + 1
  }

  /** What one round may do to the requester's chain `c`. */
  ghost predicate Progress(c: seq<Hash>, c': seq<Hash>, q: seq<Hash>, ok: bool, done: bool) {
    if !ok then c' <= q
    else if done then c' == if |q| > 1 then q else c
    else |q| > 1 && c' <= q && Behind(c', q) < Behind(c, q)
  }

  lemma RoundProgress(g: Header, q: seq<Hash>, c: seq<Hash>, resp: Response, m: nat, ok: bool)
    requires IsPath(g, q) && IsPath(g, c) && Answers(q, Tip(c), resp)
    ensures resp.blocks == [] ==> Progress(c, c, q, true, true)
    ensures resp.blocks != [] && FirstWanted(q, Tip(c)) <= m <= FirstWanted(q, Tip(c)) + |resp.blocks| <= |q| &&
            (ok ==> m == FirstWanted(q, Tip(c)) + |resp.blocks|) ==>
      Progress(c, q[..m], q, ok, |resp.blocks| < MAX_SYNC_BLOCKS)
  {
    RequestFromTip(g, q, c);
  }

  /** The execution client accepts the stored payload of block `h`, if there is one. */
  ghost predicate Agreeable(el: seq<byte> -> bool, payloads: map<Hash, seq<byte>>, h: Hash) {
    h in payloads && payloads[h] != [] ==> el(payloads[h])
  }

  ghost predicate AcceptsAll(el: seq<byte> -> bool, payloads: map<Hash, seq<byte>>, q: seq<Hash>) {
    forall h :: h in q ==> Agreeable(el, payloads, h)
  }

  /** The sync stops at block `f` of the provider's chain, which is not verified or whose payload is not
      accepted, with all blocks before it imported. */
  ghost predicate FailsAt(e: Engine, g: Header, el: seq<byte> -> bool, payloads: map<Hash, seq<byte>>,
                          q: seq<Hash>, c: seq<Hash>, f: nat)
  {
    && 0 < f < |q| && (c == q[..f] || c == q[..f + 1])
    && !(Verified(e, g, q[f]) && Agreeable(el, payloads, q[f]))
  }

  lemma StopIsFailure(e: Engine, g: Header, el: seq<byte> -> bool, elHashes: map<Hash, Hash>,
                      payloads: map<Hash, seq<byte>>, q: seq<Hash>, k: nat, blocks: seq<Record>, m: nat, f: nat)
    requires StopsAt(e, g, el, q, k, blocks, m, f) && AreBlocks(q, k, blocks) && k > 0
    requires forall i :: 0 <= i < |blocks| ==> AsStored(elHashes, payloads, blocks[i])
    ensures m <= |q| && FailsAt(e, g, el, payloads, q, q[..m], f)
  {
    assert AsStored(elHashes, payloads, blocks[f - k]) && IsBlockAt(q, k, blocks, f - k);
  }

  /** Asks the provider for the blocks after the requester's head. */
  method Ask(stor: Store, provider: Store, ghost g: Header, ghost c: seq<Hash>, ghost q: seq<Hash>)
    returns (resp: Response)
    requires stor.Sound() && stor.genesis == HashOf(g) && c == Canon(g, stor.log)
    requires provider.Sound() && provider.genesis == HashOf(g) && q == Canon(g, provider.log)
    ensures IsPath(g, c) && IsPath(g, q) && Answers(q, Tip(c), resp)
    ensures forall i :: 0 <= i < |resp.blocks| ==> AsStored(provider.elHashes, provider.payloads, resp.blocks[i])
  {
    Facts(g, stor.epoch, stor.log, stor.View());
    PathFollows(g, Best(g, stor.log));
    PathFollows(g, Best(g, provider.log));
    resp := HandleSyncRequest(provider, Request(stor.head.header.number, stor.HeadHash()), q);
  }

  /** Resets if told to, and imports the blocks that were sent. */
  method TakeIn(n: Node, resp: Response, el: seq<byte> -> bool, ghost g: Header, ghost q: seq<Hash>, ghost c: seq<Hash>)
    returns (ok: bool, ghost m: nat, ghost f: nat)
    requires n.Valid() && n.Standing() && g == n.genesisHeader && c == Canon(g, n.stor.log)
    requires IsPath(g, c) && IsPath(g, q) && Answers(q, Tip(c), resp) && resp.blocks != []
    modifies n, n.stor, n.stor.db
    ensures n.Standing() && n.Cached(Canon(g, n.stor.log)) && n.stor.db == old(n.stor.db)
    ensures FirstWanted(q, Tip(c)) <= m <= FirstWanted(q, Tip(c)) + |resp.blocks| <= |q|
    ensures Canon(g, n.stor.log) == q[..m] && (ok ==> m == FirstWanted(q, Tip(c)) + |resp.blocks|)
    ensures ok ==> n.headSnap.hash == q[m - 1]
    ensures !ok ==> StopsAt(n.eng, g, el, q, FirstWanted(q, Tip(c)), resp.blocks, m, f)
  {
    RequestFromTip(g, q, c);
    if resp.reset {
      ResetChain(n, g);
    }
    ok, m, f := ImportSyncBlocks(n, resp.blocks, el, g, q, FirstWanted(q, Tip(c)), true);
  }

  /** One request and the import of the answer. */
  method SyncRound(n: Node, provider: Store, el: seq<byte> -> bool, ghost g: Header, ghost q: seq<Hash>)
    returns (ok: bool, done: bool, ghost f: nat)
    requires n.Valid() && n.Standing() && g == n.genesisHeader
    requires provider.Sound() && provider.genesis == HashOf(g) && q == Canon(g, provider.log)
    modifies n, n.stor, n.stor.db
    ensures n.Standing() && n.Cached(Canon(g, n.stor.log)) && n.stor.db == old(n.stor.db)
    ensures Progress(old(Canon(g, n.stor.log)), Canon(g, n.stor.log), q, ok, done)
    ensures !ok ==> FailsAt(n.eng, g, el, old(provider.payloads), q, Canon(g, n.stor.log), f)
    ensures ok ==> n.headSnap.hash == Best(g, n.stor.log) || (done && n.headSnap == old(n.headSnap) &&
                                                              n.stor.log == old(n.stor.log))
  {
    ghost var c, payloads, elHashes := Canon(g, n.stor.log), provider.payloads, provider.elHashes;
    f := 0;
    var resp := Ask(n.stor, provider, g, c, q);
    if |resp.blocks| == 0 {
      RoundProgress(g, q, c, resp, 0, true);
      ok, done := true, true;
      return;
    }
    ghost var m;
    ok, m, f := TakeIn(n, resp, el, g, q, c);
    RoundProgress(g, q, c, resp, m, ok);
    if !ok {
      StopIsFailure(n.eng, g, el, elHashes, payloads, q, FirstWanted(q, Tip(c)), resp.blocks, m, f);
    }
    done := |resp.blocks| < MAX_SYNC_BLOCKS;
  }

  /** The sync loop against a fixed provider.  When it completes, the requester has the provider's
      chain; the one exception is a provider still at genesis, which changes nothing.  It fails only
      at a block that is not verified or whose payload is not accepted, and then it has all blocks
      before that one. */
  method SyncWithPeer(n: Node, provider: Store, el: seq<byte> -> bool, ghost g: Header, ghost q: seq<Hash>)
    returns (ok: bool, ghost f: nat)
    requires n.Valid() && g == n.genesisHeader
    requires provider.Sound() && provider.genesis == HashOf(g) && q == Canon(g, provider.log) && provider != n.stor
    modifies n, n.stor, n.stor.db
    ensures n.Valid()
    ensures ok ==> Canon(g, n.stor.log) == if |q| > 1 then q else old(Canon(g, n.stor.log))
    ensures !ok ==> FailsAt(n.eng, g, el, provider.payloads, q, Canon(g, n.stor.log), f)
    ensures Verified(n.eng, g, q[|q| - 1]) && AcceptsAll(el, provider.payloads, q) ==> ok
    ensures ok && old(n.headSnap.hash == Best(g, n.stor.log)) ==> n.headSnap.hash == Best(g, n.stor.log)
  {
    AncestorsVerified(n.eng, g, provider.log, q);
    CoherentIsNamed(n.eng, g, Canon(g, n.stor.log), n.headSnap, n.epochSnaps);
    ghost var start, c := Canon(g, n.stor.log), Canon(g, n.stor.log);
    ok, f := true, 0;
    var done := false;
    while !done
      invariant n.Standing() && n.Cached(Canon(g, n.stor.log)) && n.stor.db == old(n.stor.db)
      invariant provider.Sound() && c == Canon(g, n.stor.log) && ok
      invariant if done then c == if |q| > 1 then q else start else c == start || (|q| > 1 && c <= q)
      invariant old(n.headSnap.hash == Best(g, n.stor.log)) ==> n.headSnap.hash == Best(g, n.stor.log)
      decreases !done, Behind(c, q)
    {
      ok, done, f := SyncRound(n, provider, el, g, q);
      c := Canon(g, n.stor.log);
      if !ok {
        return;
      }
    }
  }

  lemma AncestorsVerified(e: Engine, g: Header, log: seq<Record>, q: seq<Hash>)
    requires IsLog(g, log) && q == Canon(g, log)
    ensures Verified(e, g, q[|q| - 1]) ==> AllVerified(e, g, q)
  {
    PathFollows(g, Best(g, log));
    if Verified(e, g, q[|q| - 1]) {
      forall i | 0 <= i < |q|
        ensures Verified(e, g, q[i])
      {
        AncestorIsVerified(e, g, q, |q| - 1, i);
      }
    }
  }

  /** Once the chains are the same, so are the canonical index and the head. */
  lemma SyncedStoresAgree(stor: Store, provider: Store, g: Header)
    requires stor.Sound() && stor.genesis == HashOf(g) && provider.Sound() && provider.genesis == HashOf(g)
    requires Canon(g, stor.log) == Canon(g, provider.log)
    ensures stor.numbers == provider.numbers && stor.head.header == provider.head.header
  {
    Facts(g, stor.epoch, stor.log, stor.View());
    Facts(g, provider.epoch, provider.log, provider.View());
    SameChoice(stor.View(), stor.epoch, provider.View(), provider.epoch, Canon(g, stor.log));
  }
}

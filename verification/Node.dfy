/**
 The node's block pipeline over the fork-choice store and the snapshot cache: computing a
 snapshot from the nearest checkpoint, and importing gossiped blocks.
 */
module Node {
  import opened Primitives
  import opened Clique
  import opened CliqueApply
  import opened CliqueCheckpoint
  import opened CliqueChain
  import opened ForkTree
  import opened ForkChoice
  import opened SnapshotCache

  datatype SnapshotError =
    | EpochHeaderMissing | BlockMissing | BadCheckpoint(reason: Error) | ApplyFailed(cause: Error)

  datatype Outcome =
    | UnknownParentBlock | NoParentSnapshot | HeaderRejected | SideChain | PayloadRejected
    | NoSnapshot | Imported

  class Node {
    const eng: Engine
    const stor: Store
    const genesisHeader: Header
    var genesisSnap: Snapshot
    var headSnap: Snapshot
    var epochSnaps: map<nat, Snapshot>

    /** The cache is coherent with chain `p`. */
    ghost predicate Cached(p: seq<Hash>)
      reads this
    {
      && CheckpointSnapshot(genesisHeader) == Ok(genesisSnap)
      && Coherent(eng, genesisHeader, p, headSnap, epochSnaps)
    }

    ghost predicate Valid()
      reads this, stor, stor.db
    {
      match stor.genesis
      case Raw(_) => false
      case HashOf(g) => stor.Valid() && genesisHeader == g && Cached(Canon(g, stor.log))
    }

    /** Every snapshot held has the number it is held for, whatever chain it is from. */
    ghost predicate Named()
      reads this
    {
      && genesisHeader.number == 0
      && CheckpointSnapshot(genesisHeader) == Ok(genesisSnap)
      && AreNamed(epochSnaps)
    }

    /** The store is right, and the cache may be stale. */
    ghost predicate Standing()
      reads this, stor, stor.db
    {
      match stor.genesis
      case Raw(_) => false
      case HashOf(g) => stor.Valid() && genesisHeader == g && Named()
    }

    /** A node at genesis.  Start-up fails when the genesis header yields no snapshot. */
    constructor (eng: Engine, g: Header)
      requires g.number == 0 && CheckpointSnapshot(g).Ok?
      ensures Valid() && this.eng == eng && genesisHeader == g && stor.log == [] && stor.db == null && fresh(stor)
      ensures stor.epoch == eng.epoch && headSnap == genesisSnap && epochSnaps == map[]
    {
      this.eng := eng;
      genesisHeader := g;
      stor := new Store(g, eng.epoch);
      genesisSnap, headSnap := CheckpointSnapshot(g).value, CheckpointSnapshot(g).value;
      epochSnaps := map[];
      GenesisIsFaithful(eng, g);
      PathFollows(g, HashOf(g));
      CoherentWithoutEntries(eng, g, [HashOf(g)], CheckpointSnapshot(g).value);
    }

    /** Makes `snap` the head snapshot, and caches it at an epoch boundary. */
    method SetHeadSnapshot(snap: Snapshot, ghost p: seq<Hash>)
      modifies this`headSnap, this`epochSnaps
      ensures headSnap == snap && epochSnaps == Cache(eng, old(epochSnaps), snap)
      ensures old(Cached(p)) && Faithful(eng, genesisHeader, snap) && snap.number < |p| && snap.hash == p[snap.number]
        ==> Cached(p)
    {
      if Cached(p) && Faithful(eng, genesisHeader, snap) && snap.number < |p| && snap.hash == p[snap.number] {
        CoherentWithSnap(eng, genesisHeader, p, headSnap, epochSnaps, snap);
      }
      headSnap := snap;
      if eng.IsEpoch(snap.number) {
        epochSnaps := epochSnaps[snap.number := snap];
      }
    }

    // ----- Computing snapshots.  Ghost `sound` says whether the cache is coherent with chain `p`.

    /** The snapshot to start from when the nearest checkpoint at or below is block `start`. */
    method Base(start: nat, ghost p: seq<Hash>, ghost sound: bool) returns (r: Result<Snapshot, SnapshotError>)
      requires Chain(stor.blocks, p) && IsIndex(stor.numbers, p) && eng.IsEpoch(start)
      requires Named() && (sound ==> Cached(p))
      modifies this`epochSnaps
      ensures Named() && Adds(old(epochSnaps), epochSnaps, start)
      ensures r.Ok? ==> r.value.number == start
      ensures start in old(epochSnaps) ==> r == Ok(old(epochSnaps)[start])
      ensures sound ==> Cached(p)
      ensures sound && r.Ok? ==> start < |p| && r.value.hash == p[start] && Faithful(eng, genesisHeader, r.value)
      ensures sound && start < |p| && p[start].HashOf? && CheckpointSnapshot(p[start].header).Ok? ==> r.Ok?
    {
      if sound {
        CoherentFacts(eng, genesisHeader, p, headSnap, epochSnaps);
      }
      if start in epochSnaps {
        assert sound ==> IsMet(EpochEntry(start), eng, genesisHeader, p, headSnap, epochSnaps);
        return Ok(epochSnaps[start]);
      }
      if start == 0 {
        if sound {
          GenesisIsFaithful(eng, genesisHeader);
          assert Follower(genesisHeader, p, 0);
        }
        return Ok(genesisSnap);
      }
      var header := stor.GetByNumber(start);
      if header == None {
        if start < |p| {
          OnChain(stor.blocks, p, start);
        }
        return Err(EpochHeaderMissing);
      }
      OnChain(stor.blocks, p, start);
      var checkpoint := CheckpointSnapshot(header.value);
      if checkpoint.Err? {
        return Err(BadCheckpoint(checkpoint.error));
      }
      if sound {
        assert Follower(genesisHeader, p, start);
        CheckpointIsFaithful(eng, genesisHeader, p[start]);
        CoherentWithEntry(eng, genesisHeader, p, headSnap, epochSnaps, start, checkpoint.value);
      }
      epochSnaps := epochSnaps[start := checkpoint.value];
      return Ok(checkpoint.value);
    }

    /** The canonical headers numbered `start + 1` to `num`; None if one is missing. */
    method CollectHeaders(start: nat, num: nat, ghost p: seq<Hash>) returns (headers: Option<seq<Header>>)
      requires Chain(stor.blocks, p) && IsIndex(stor.numbers, p) && start <= num
      ensures headers.Some? <==> num < |p| || start == num
      ensures headers.Some? && start < |p| ==> |headers.value| == num - start && AreHeaders(p, start, headers.value)
      ensures headers.Some? && start == num ==> headers.value == []
    {
      var list := [];
      var i := start + 1;
      while i <= num
        invariant start < i <= num + 1 && |list| == i - start - 1
        invariant i > start + 1 ==> i - 1 < |p|
        invariant forall k :: 0 <= k < |list| ==> HashOf(list[k]) == p[start + 1 + k]
      {
        var header := stor.GetByNumber(i);
        if i < |p| {
          OnChain(stor.blocks, p, i);
        }
        if header == None {
          return None;
        }
        list := list + [header.value];
        i := i + 1;
      }
      return Some(list);
    }

    /** The snapshot of canonical block `num`, from the nearest checkpoint at or below it. */
    method FromCheckpoint(num: nat, ghost p: seq<Hash>, ghost sound: bool) returns (r: Result<Snapshot, SnapshotError>)
      requires Chain(stor.blocks, p) && IsIndex(stor.numbers, p) && Named() && (sound ==> Cached(p))
      modifies this`epochSnaps
      ensures Named() && Adds(old(epochSnaps), epochSnaps, num / eng.epoch * eng.epoch)
      ensures r.Ok? ==> r.value.number == num
      ensures eng.IsEpoch(num) && num in old(epochSnaps) ==> r == Ok(old(epochSnaps)[num])
      ensures sound ==> Cached(p)
      ensures sound && r.Ok? ==>
        num < |p| && Faithful(eng, genesisHeader, r.value) && r.value.hash == p[num]
      ensures sound && Computable(eng, genesisHeader, p, num) ==> r.Ok?
    {
      var start := num / eng.epoch * eng.epoch;
      EpochStart(eng, num);
      var base := Base(start, p, sound);
      if base.Err? {
        return Err(base.error);
      }
      var headers := CollectHeaders(start, num, p);
      if headers == None {
        return Err(BlockMissing);
      }
      if sound {
        CanonicalReplay(eng, genesisHeader, p, stor.blocks, headSnap, epochSnaps, base.value, headers.value, num);
      }
      if Applied(eng, base.value, headers.value).Ok? {
        AppliedNumber(eng, base.value, headers.value);
      }
      var all := Apply(eng, base.value, headers.value);
      return if all.Ok? then Ok(all.value) else Err(ApplyFailed(all.error));
    }

    /** The snapshot at `header`: one step from the head snapshot if it extends that, otherwise the
        canonical headers since the nearest checkpoint.  What it returns is faithful, and for a
        canonical block that replays from genesis it does return a snapshot. */
    method ComputeSnapshot(header: Header, ghost p: seq<Hash>, ghost sound: bool)
      returns (r: Result<Snapshot, SnapshotError>)
      requires Chain(stor.blocks, p) && IsIndex(stor.numbers, p) && Named() && (sound ==> Cached(p))
      modifies this`epochSnaps
      ensures Named() && Adds(old(epochSnaps), epochSnaps, header.number / eng.epoch * eng.epoch)
      ensures r.Ok? ==> r.value.number == header.number
      ensures Extends(headSnap, header) ==>
        && epochSnaps == old(epochSnaps)
        && (r.Ok? <==> Step(eng, headSnap, header).Ok?)
        && (r.Ok? ==> r.value == Step(eng, headSnap, header).value)
      ensures !Extends(headSnap, header) && eng.IsEpoch(header.number) && header.number in old(epochSnaps) ==>
        r == Ok(old(epochSnaps)[header.number])
      ensures sound ==> Cached(p)
      ensures sound && r.Ok? ==> Faithful(eng, genesisHeader, r.value)
      ensures sound && r.Ok? && IsCanonical(p, header) ==> r.value.hash == HashOf(header)
      ensures sound && r.Ok? && !Extends(headSnap, header) ==> header.number < |p| && r.value.hash == p[header.number]
      ensures sound && IsCanonical(p, header) && Computable(eng, genesisHeader, p, header.number) ==> r.Ok?
      ensures sound && !Extends(headSnap, header) && Computable(eng, genesisHeader, p, header.number) ==> r.Ok?
    {
      if sound {
        CoherentFacts(eng, genesisHeader, p, headSnap, epochSnaps);
      }
      if headSnap.number + 1 == header.number && headSnap.hash == header.parentHash {
        if sound {
          ChildIsFaithful(eng, genesisHeader, headSnap, header);
        }
        OneHeader(eng, headSnap, header);
        var one := Apply(eng, headSnap, [header]);
        return if one.Ok? then Ok(one.value) else Err(ApplyFailed(one.error));
      }
      r := FromCheckpoint(header.number, p, sound);
    }

    /** The snapshot at a stored block. */
    method ComputeSnapshotAt(header: Header, ghost p: seq<Hash>, ghost sound: bool)
      returns (r: Result<Snapshot, SnapshotError>)
      requires Chain(stor.blocks, p) && IsIndex(stor.numbers, p) && Named() && (sound ==> Cached(p))
      modifies this`epochSnaps
      ensures Named() && Adds(old(epochSnaps), epochSnaps, header.number / eng.epoch * eng.epoch)
      ensures r.Ok? ==> r.value.number == header.number
      ensures sound ==> Cached(p) && IsSnapshotAt(eng, genesisHeader, p, genesisSnap, headSnap, header, r)
      ensures sound && r.Ok? ==> Faithful(eng, genesisHeader, r.value)
      ensures sound && r.Ok? && IsCanonical(p, header) ==> r.value.hash == HashOf(header)
      ensures sound && IsCanonical(p, header) && Computable(eng, genesisHeader, p, header.number) ==> r.Ok?
    {
      if sound {
        CoherentFacts(eng, genesisHeader, p, headSnap, epochSnaps);
      }
      if header.number == 0 {
        if sound {
          GenesisIsFaithful(eng, genesisHeader);
          assert Follower(genesisHeader, p, 0);
        }
        return Ok(genesisSnap);
      }
      if headSnap.number == header.number && headSnap.hash == HashOf(header) {
        return Ok(headSnap);
      }
      r := ComputeSnapshot(header, p, sound);
    }

    // ----- Importing a gossiped block

    /** Stores a verified block.  The cache fits the new chain once the epoch entries are dropped
        after a reorganisation. */
    method Enter(header: Header, elHash: Hash, payload: seq<byte>, ghost g: Header)
      returns (headChanged: bool, depth: nat)
      requires Valid() && g == genesisHeader && header.parentHash in stor.blocks && Numbered(header)
      modifies stor, stor.db
      ensures stor.Valid() && stor.genesis == old(stor.genesis) && stor.db == old(stor.db)
      ensures stor.log == Submit(g, old(stor.log), Record(header, elHash, payload))
      ensures Coherent(eng, g, Canon(g, stor.log), headSnap, if headChanged && depth > 0 then map[] else epochSnaps)
      ensures headChanged <==> Best(g, stor.log) != Best(g, old(stor.log))
      ensures headChanged ==> Best(g, stor.log) == HashOf(header)
      ensures headChanged ==> (depth > 0 <==> header.parentHash != Best(g, old(stor.log)))
    {
      ghost var before, r := stor.log, Record(header, elHash, payload);
      KnownIsStored(stor, header.parentHash);
      var err;
      headChanged, depth, err := stor.AddBlock(header, elHash, payload);
      CacheMoves(eng, g, stor.epoch, before, r, stor.log, stor.View(), headChanged, depth, headSnap, epochSnaps);
    }

    /** Stores a verified block and drops the epoch entries after a reorganisation. */
    method StoreBlock(header: Header, elHash: Hash, payload: seq<byte>, ghost g: Header) returns (headChanged: bool)
      requires Valid() && g == genesisHeader && header.parentHash in stor.blocks && Numbered(header)
      modifies this`epochSnaps, stor, stor.db
      ensures stor.Valid() && stor.genesis == old(stor.genesis) && stor.db == old(stor.db)
      ensures stor.log == Submit(g, old(stor.log), Record(header, elHash, payload))
      ensures Cached(Canon(g, stor.log))
      ensures headChanged <==> Best(g, stor.log) != Best(g, old(stor.log))
      ensures headChanged ==> Best(g, stor.log) == HashOf(header)
      ensures epochSnaps ==
        if headChanged && header.parentHash != Best(g, old(stor.log)) then map[] else old(epochSnaps)
    {
      var depth;
      headChanged, depth := Enter(header, elHash, payload, g);
      if headChanged && depth > 0 {
        epochSnaps := map[];
      }
    }

    /** The checks before a block is stored: known parent, a snapshot there, a valid header.  With a
        coherent cache, what passes passes on a snapshot of the parent that agrees with replay, and
        a verified child of a canonical block always passes. */
    method CheckBlock(header: Header, ghost g: Header, ghost p: seq<Hash>, ghost sound: bool)
      returns (refusal: Option<Outcome>, ghost snap: Result<Snapshot, SnapshotError>)
      requires stor.Sound() && stor.genesis == HashOf(g) && g == genesisHeader && p == Canon(g, stor.log)
      requires Named() && (sound ==> Cached(p))
      modifies this`epochSnaps
      ensures Named() && (sound ==> Cached(p)) && AddsForParent(eng, old(epochSnaps), epochSnaps, header)
      ensures refusal == None ==> header.parentHash in stor.blocks
      ensures refusal.Some? ==> IsRefusal(refusal.value)
      ensures IsChecked(Check(eng, g, p, stor.blocks, genesisSnap, headSnap, header, snap, refusal), sound)
    {
      CanonIsStored(g, stor.epoch, stor.log, stor.View());
      StoredParent(g, stor.epoch, stor.log, stor.View(), p, header);
      if sound {
        CoherentFacts(eng, g, p, headSnap, epochSnaps);
      }
      var parent := stor.GetByHash(header.parentHash);
      if parent == None {
        refusal, snap := Some(UnknownParentBlock), Err(BlockMissing);
        CheckUnknown(Check(eng, g, p, stor.blocks, genesisSnap, headSnap, header, snap, refusal));
        return;
      }
      var parentSnap := ComputeSnapshotAt(parent.value, p, sound);
      snap := parentSnap;
      refusal :=
        if parentSnap.Err? then Some(NoParentSnapshot)
        else if VerifyHeader(eng, parentSnap.value, header, parent) != None then Some(HeaderRejected)
        else None;
      CheckKnown(Check(eng, g, p, stor.blocks, genesisSnap, headSnap, header, snap, refusal), sound);
    }

    /** Moves the head snapshot to the head block. */
    method AdvanceSnapshot(header: Header, ghost g: Header) returns (ok: bool)
      requires Valid() && g == genesisHeader && Best(g, stor.log) == HashOf(header)
      modifies this`headSnap, this`epochSnaps
      ensures Cached(Canon(g, stor.log))
      ensures if ok then headSnap.hash == HashOf(header) else headSnap == old(headSnap)
      ensures Extends(old(headSnap), header) ==> (ok <==> Step(eng, old(headSnap), header).Ok?)
      ensures Computable(eng, g, Canon(g, stor.log), header.number) ==> ok
      ensures Verified(eng, g, HashOf(header)) ==> ok
    {
      ghost var p := Canon(g, stor.log);
      CanonIsStored(g, stor.epoch, stor.log, stor.View());
      CoherentIsNamed(eng, g, p, headSnap, epochSnaps);
      HeadComputes(eng, g, p, headSnap, epochSnaps, header);
      var next := ComputeSnapshot(header, p, true);
      if next.Err? {
        return false;
      }
      SetHeadSnapshot(next.value, p);
      return true;
    }

    /** Imports a block that passed the checks. */
    method ImportChecked(header: Header, elHash: Hash, payload: seq<byte>, elAccepts: bool, ghost g: Header)
      returns (o: Outcome)
      requires Valid() && g == genesisHeader && header.parentHash in stor.blocks && Numbered(header)
      modifies this, stor, stor.db
      ensures stor.Valid() && stor.genesis == old(stor.genesis) && stor.db == old(stor.db)
      ensures Cached(Canon(g, stor.log))
      ensures stor.log == Submit(g, old(stor.log), Record(header, elHash, payload))
      ensures IsOutcome(
        o, HashOf(header), elAccepts, Best(g, old(stor.log)), Best(g, stor.log), old(headSnap), headSnap)
      ensures Verified(eng, g, HashOf(header)) ==> o != NoSnapshot
    {
      var headChanged := StoreBlock(header, elHash, payload, g);
      if !headChanged {
        return SideChain;
      }
      if !elAccepts {
        return PayloadRejected;
      }
      var ok := AdvanceSnapshot(header, g);
      return if ok then Imported else NoSnapshot;
    }

    /** Imports a gossiped block.  Whatever the outcome, the store and the cache stay in step.  The
        outcome says exactly what happened: what the checks decided on the parent's snapshot, and for
        an admitted block, whether it took the head, whether the execution client accepted it, and
        whether its snapshot is now the head snapshot. */
    method HandleBlock(header: Header, elHash: Hash, payload: seq<byte>, elAccepts: bool,
                       ghost g: Header, ghost p: seq<Hash>)
      returns (o: Outcome, ghost refusal: Option<Outcome>, ghost snap: Result<Snapshot, SnapshotError>)
      requires Valid() && g == genesisHeader && p == Canon(g, stor.log)
      requires header.parentHash in stor.blocks ==> Numbered(header)
      modifies this, stor, stor.db
      ensures Valid() && stor.db == old(stor.db)
      ensures stor.log == if refusal.Some? then old(stor.log)
                          else Submit(g, old(stor.log), Record(header, elHash, payload))
      ensures IsChecked(Check(eng, g, p, old(stor.blocks), genesisSnap, old(headSnap), header, snap, refusal), true)
      ensures IsHandled(refusal, o, HashOf(header), elAccepts, p[|p| - 1], Best(g, stor.log), old(headSnap), headSnap)
      ensures Verified(eng, g, HashOf(header)) ==> o != NoSnapshot
    {
      CoherentIsNamed(eng, g, p, headSnap, epochSnaps);
      var refused;
      refused, snap := CheckBlock(header, g, p, true);
      refusal := refused;
      if refused.Some? {
        o := refused.value;
        return;
      }
      o := ImportChecked(header, elHash, payload, elAccepts, g);
    }
  }

  /** What the checks decide when `snap` is the snapshot computed for the parent. */
  function Verdict(e: Engine, blocks: map<Hash, Entry>, header: Header, snap: Result<Snapshot, SnapshotError>)
    : (refusal: Option<Outcome>)
    ensures refusal.Some? ==> IsRefusal(refusal.value)
  {
    if header.parentHash !in blocks then Some(UnknownParentBlock)
    else if snap.Err? then Some(NoParentSnapshot)
    else if VerifyHeader(e, snap.value, header, Some(blocks[header.parentHash].header)) != None
    then Some(HeaderRejected)
    else None
  }

  /** The checks made on one block: what they were made with, and what they decided. */
  datatype Check = Check(
    e: Engine, g: Header, p: seq<Hash>, blocks: map<Hash, Entry>, genesisSnap: Snapshot, headSnap: Snapshot,
    header: Header, snap: Result<Snapshot, SnapshotError>, refusal: Option<Outcome>)

  /** What is known of them.  IsChecked quantifies over the findings, so that a proof that only passes
      them along does not open them. */
  datatype Finding = Origin | Decision | Admission | Welcome

  ghost predicate IsFound(f: Finding, c: Check) {
    match f
    case Origin =>
      c.header.parentHash in c.blocks ==>
        IsSnapshotAt(c.e, c.g, c.p, c.genesisSnap, c.headSnap, c.blocks[c.header.parentHash].header, c.snap)
    case Decision => c.refusal == Verdict(c.e, c.blocks, c.header, c.snap)
    case Admission => c.refusal == None ==> PassesCheck(c.e, c.g, c.p, c.header)
    case Welcome => Expected(c.e, c.g, c.p, c.header) ==> c.refusal == None
  }

  /** Without a coherent cache, only the decision is known. */
  ghost predicate IsChecked(c: Check, sound: bool) {
    forall f: Finding :: sound || f == Decision ==> IsFound(f, c)
  }

  lemma CheckUnknown(c: Check)
    requires c.header.parentHash !in c.blocks && c.refusal == Some(UnknownParentBlock)
    requires c.header.parentHash.HashOf? ==> !IsCanonical(c.p, c.header.parentHash.header)
    ensures IsChecked(c, true)
  {
  }

  lemma CheckKnown(c: Check, sound: bool)
    requires c.header.parentHash in c.blocks && c.header.parentHash.HashOf?
    requires c.blocks[c.header.parentHash].header == c.header.parentHash.header
    requires c.refusal == Verdict(c.e, c.blocks, c.header, c.snap)
    requires sound ==> IsPath(c.g, c.p)
    requires sound ==> IsSnapshotAt(c.e, c.g, c.p, c.genesisSnap, c.headSnap, c.header.parentHash.header, c.snap)
    requires sound && c.snap.Ok? ==> IsSuitable(c.e, c.g, c.p, c.header.parentHash.header, c.snap.value)
    requires sound && IsCanonical(c.p, c.header.parentHash.header) ==>
      (Computable(c.e, c.g, c.p, c.header.parentHash.header.number) ==> c.snap.Ok?)
    ensures IsChecked(c, sound)
  {
    if sound && Expected(c.e, c.g, c.p, c.header) {
      ParentPasses(c.e, c.g, c.p, c.header, if c.snap.Ok? then c.snap.value else c.headSnap);
    }
  }

  /** A faithful snapshot for the block's number, and of the block itself if it is canonical. */
  ghost predicate IsSuitable(e: Engine, g: Header, p: seq<Hash>, header: Header, snap: Snapshot) {
    && Faithful(e, g, snap) && snap.number == header.number
    && (IsCanonical(p, header) ==> snap.hash == HashOf(header))
  }

  /** The snapshot of the parent is the right one, the decision follows from it and the header, an
      admitted header passes on a snapshot that agrees with replay, and a verified child of a
      canonical block is never refused. */
  lemma CheckFacts(c: Check)
    requires IsChecked(c, true)
    ensures c.header.parentHash in c.blocks ==>
      IsSnapshotAt(c.e, c.g, c.p, c.genesisSnap, c.headSnap, c.blocks[c.header.parentHash].header, c.snap)
    ensures c.refusal == Verdict(c.e, c.blocks, c.header, c.snap)
    ensures c.refusal == None ==> PassesCheck(c.e, c.g, c.p, c.header)
    ensures Expected(c.e, c.g, c.p, c.header) ==> c.refusal == None
  {
    assert IsFound(Origin, c) && IsFound(Decision, c) && IsFound(Admission, c) && IsFound(Welcome, c);
  }

  /** The snapshot used for stored block `header`, given a coherent cache: the genesis or the head
      snapshot if it is that block; one step from the head snapshot if it extends that; otherwise a
      faithful snapshot of the canonical block of its number, which exists if that can be computed. */
  ghost predicate IsSnapshotAt(e: Engine, g: Header, p: seq<Hash>, genesisSnap: Snapshot, headSnap: Snapshot,
                               header: Header, r: Result<Snapshot, SnapshotError>)
  {
    if header.number == 0 then r == Ok(genesisSnap)
    else if headSnap.number == header.number && headSnap.hash == HashOf(header) then r == Ok(headSnap)
    else if Extends(headSnap, header) then
      (r.Ok? <==> Step(e, headSnap, header).Ok?) && (r.Ok? ==> r.value == Step(e, headSnap, header).value)
    else
      && (r.Ok? ==> header.number < |p| && r.value.hash == p[header.number] && Faithful(e, g, r.value))
      && (Computable(e, g, p, header.number) ==> r.Ok?)
  }

  /** The outcome of importing an admitted block, from the head and the head snapshot before and after. */
  ghost predicate IsOutcome(o: Outcome, hash: Hash, elAccepts: bool, before: Hash, after: Hash,
                            oldSnap: Snapshot, newSnap: Snapshot)
  {
    match o
    case SideChain => after == before && newSnap == oldSnap
    case PayloadRejected => after != before && after == hash && !elAccepts && newSnap == oldSnap
    case NoSnapshot => after != before && after == hash && elAccepts && newSnap == oldSnap
    case Imported => after != before && after == hash && elAccepts && newSnap.hash == hash
    case _ => false
  }

  /** The outcome is the refusal if there was one, and what importing the block led to if not. */
  ghost predicate IsHandled(refusal: Option<Outcome>, o: Outcome, hash: Hash, elAccepts: bool,
                            before: Hash, after: Hash, oldSnap: Snapshot, newSnap: Snapshot)
  {
    match refusal
    case Some(reason) => o == reason && IsRefusal(reason) && after == before && newSnap == oldSnap
    case None => IsOutcome(o, hash, elAccepts, before, after, oldSnap, newSnap)
  }

  /** So for an admitted block each outcome means one thing, and a verified block that takes the head
      and is accepted by the execution client is imported. */
  lemma OutcomeIff(refusal: Option<Outcome>, o: Outcome, hash: Hash, elAccepts: bool,
                   before: Hash, after: Hash, oldSnap: Snapshot, newSnap: Snapshot)
    requires IsHandled(refusal, o, hash, elAccepts, before, after, oldSnap, newSnap) && refusal == None
    ensures o == SideChain <==> after == before
    ensures o == PayloadRejected <==> after != before && !elAccepts
    ensures o == Imported || o == NoSnapshot <==> after != before && elAccepts
    ensures after != before ==> after == hash
    ensures o == Imported ==> newSnap.hash == hash
    ensures after != before && elAccepts && o != NoSnapshot ==> o == Imported && newSnap.hash == hash
  {
  }

  /** A verified child of a block of the canonical chain. */
  ghost predicate Expected(e: Engine, g: Header, p: seq<Hash>, header: Header) {
    Numbered(header) && IsCanonical(p, header.parentHash.header) && Verified(e, g, HashOf(header))
  }

  predicate IsRefusal(o: Outcome) {
    o.UnknownParentBlock? || o.NoParentSnapshot? || o.HeaderRejected?
  }

  lemma KnownIsStored(stor: Store, h: Hash)
    requires stor.Valid()
    ensures h in Known(stor.genesis.header, stor.log) <==> h in stor.blocks
  {
    Facts(stor.genesis.header, stor.epoch, stor.log, stor.View());
  }

  /** Dropping the epoch entries when a depth is reported keeps the cache coherent with the
      canonical chain. */
  lemma CacheMoves(e: Engine, g: Header, epoch: nat, before: seq<Record>, r: Record, after: seq<Record>, t: Tables,
                   headChanged: bool, depth: nat, headSnap: Snapshot, epochSnaps: map<nat, Snapshot>)
    requires HeadMove(g, before, after, headChanged, depth) && after == Submit(g, before, r)
    requires r.header.parentHash in Known(g, before) ==> Numbered(r.header)
    requires StandsFor(g, epoch, after, t)
    requires Coherent(e, g, Canon(g, before), headSnap, epochSnaps)
    ensures Coherent(e, g, Canon(g, after), headSnap, if headChanged && depth > 0 then map[] else epochSnaps)
    ensures headChanged ==> Best(g, after) == HashOf(r.header)
    ensures headChanged ==> (depth > 0 <==> r.header.parentHash != Best(g, before))
  {
    CoherentFacts(e, g, Canon(g, before), headSnap, epochSnaps);
    CanonMoves(g, epoch, before, r, after, t, headChanged, depth);
    PathFollows(g, Best(g, after));
    if !headChanged || depth == 0 {
      CoherentExtends(e, g, Canon(g, before), Canon(g, after), headSnap, epochSnaps);
    } else {
      CoherentWithoutEntries(e, g, Canon(g, after), headSnap);
    }
  }

  /** Applying the canonical headers after a faithful snapshot of a canonical block. */
  lemma CanonicalReplay(e: Engine, g: Header, p: seq<Hash>, blocks: map<Hash, Entry>,
                        headSnap: Snapshot, epochSnaps: map<nat, Snapshot>,
                        base: Snapshot, headers: seq<Header>, num: nat)
    requires Coherent(e, g, p, headSnap, epochSnaps) && Faithful(e, g, base) && Chain(blocks, p)
    requires AreHeaders(p, base.number, headers) && base.hash == p[base.number] && num == base.number + |headers|
    ensures IsReplayed(e, g, p[num], Applied(e, base, headers))
  {
    CoherentFacts(e, g, p, headSnap, epochSnaps);
    ReplayAlong(e, g, p, base, headers);
    ChainIsContiguous(blocks, p, base.number, headers);
    assert headers == [] || headers[0].number == base.number + 1;
  }

  /** The tip of the chain is canonical, and its snapshot can be computed if it is verified. */
  lemma HeadComputes(e: Engine, g: Header, p: seq<Hash>, headSnap: Snapshot, epochSnaps: map<nat, Snapshot>,
                     header: Header)
    requires Coherent(e, g, p, headSnap, epochSnaps) && p != [] && p[|p| - 1] == HashOf(header)
    ensures IsCanonical(p, header)
    ensures Verified(e, g, HashOf(header)) ==> Computable(e, g, p, header.number)
  {
    CoherentFacts(e, g, p, headSnap, epochSnaps);
    assert Follower(g, p, |p| - 1);
    if Verified(e, g, HashOf(header)) {
      VerifiedIsComputable(e, g, p, |p| - 1);
    }
  }

  /** The parent's snapshot of an expected block can be computed, and any faithful snapshot of it
      admits the block. */
  lemma ParentPasses(e: Engine, g: Header, p: seq<Hash>, header: Header, snap: Snapshot)
    requires IsPath(g, p) && Expected(e, g, p, header)
    ensures Computable(e, g, p, header.parentHash.header.number)
    ensures Faithful(e, g, snap) && snap.hash == header.parentHash ==>
      VerifyHeader(e, snap, header, Some(header.parentHash.header)) == None
  {
    VerifiedFacts(e, g, HashOf(header));
    VerifiedIsComputable(e, g, p, header.parentHash.header.number);
    if Faithful(e, g, snap) && snap.hash == header.parentHash {
      VerifyKeepsAgreement(e, StateAt(e, g, snap.hash).value, snap, header, Some(header.parentHash.header));
    }
  }

  /** Some snapshot that agrees with replay admits the header.  If the parent is canonical, it is a
      snapshot of the parent. */
  ghost predicate PassesCheck(e: Engine, g: Header, p: seq<Hash>, header: Header) {
    && header.parentHash.HashOf?
    && var parent := header.parentHash.header;
    exists snap ::
      && Faithful(e, g, snap) && snap.number == parent.number
      && (IsCanonical(p, parent) ==> snap.hash == header.parentHash)
      && VerifyHeader(e, snap, header, Some(parent)) == None
  }

  /** A child of a canonical block is admitted only if it is signed by an authorised signer of the
      full replay up to the parent, with the difficulty that replay calls for, and not too soon after
      a block that signer sealed since the last checkpoint. */
  lemma AdmittedIsAuthorised(e: Engine, g: Header, p: seq<Hash>, header: Header)
    requires PassesCheck(e, g, p, header) && IsCanonical(p, header.parentHash.header)
    requires Rooted(g, header.parentHash) && StateAt(e, g, header.parentHash).Ok?
    ensures
      var s, signer := StateAt(e, g, header.parentHash).value, e.SignerOf(header);
      && signer.Some? && signer.value in s.signers
      && header.difficulty == CalcDifficulty(s, header.number, signer.value)
      && header.time >= header.parentHash.header.time + e.period
      && forall b :: b in s.recents && s.recents[b] == signer.value && SinceCheckpoint(e, b, s.number) ==>
        b + |s.signers| / 2 + 1 <= header.number
  {
    var snap :| && Faithful(e, g, snap) && snap.hash == header.parentHash
                && VerifyHeader(e, snap, header, Some(header.parentHash.header)) == None;
    VerifiedHeaderFacts(e, snap, header, header.parentHash.header);
    VerifyHeaderIff(e, snap, header, Some(header.parentHash.header));
    assert SignerList(StateAt(e, g, header.parentHash).value) == SignerList(snap);
  }

  lemma StoredParent(g: Header, epoch: nat, log: seq<Record>, t: Tables, p: seq<Hash>, header: Header)
    requires StandsFor(g, epoch, log, t) && p == Canon(g, log) && Chain(t.blocks, p)
    ensures header.parentHash in t.blocks ==>
      header.parentHash.HashOf? && t.blocks[header.parentHash].header == header.parentHash.header
    ensures header.parentHash.HashOf? && IsCanonical(p, header.parentHash.header) ==> header.parentHash in t.blocks
  {
    Facts(g, epoch, log, t);
    if header.parentHash.HashOf? && IsCanonical(p, header.parentHash.header) {
      assert Link(t.blocks, p, header.parentHash.header.number);
    }
  }

  ghost predicate AreNamed(epochSnaps: map<nat, Snapshot>) {
    forall k :: k in epochSnaps ==> epochSnaps[k].number == k
  }

  lemma CoherentIsNamed(e: Engine, g: Header, p: seq<Hash>, headSnap: Snapshot, epochSnaps: map<nat, Snapshot>)
    requires Coherent(e, g, p, headSnap, epochSnaps)
    ensures AreNamed(epochSnaps)
  {
    forall k | k in epochSnaps
      ensures epochSnaps[k].number == k
    {
      assert IsMet(EpochEntry(k), e, g, p, headSnap, epochSnaps);
    }
  }

  predicate IsCanonical(p: seq<Hash>, header: Header) {
    header.number < |p| && p[header.number] == HashOf(header)
  }

  /** Every entry is still there, and at most one is new, at `start`. */
  ghost predicate Adds(before: map<nat, Snapshot>, after: map<nat, Snapshot>, start: nat) {
    && (forall k :: k in before ==> k in after && after[k] == before[k])
    && (forall k :: k in after ==> k in before || k == start)
  }

  /** The only new entry is the checkpoint of the parent's epoch. */
  ghost predicate AddsForParent(e: Engine, before: map<nat, Snapshot>, after: map<nat, Snapshot>, header: Header) {
    after == before ||
    (header.parentHash.HashOf? && Adds(before, after, header.parentHash.header.number / e.epoch * e.epoch))
  }

  lemma ChainIsContiguous(blocks: map<Hash, Entry>, p: seq<Hash>, k: nat, headers: seq<Header>)
    requires Chain(blocks, p) && AreHeaders(p, k, headers)
    ensures Contiguous(k, headers)
  {
    forall i | 0 <= i < |headers|
      ensures headers[i].number == k + 1 + i
    {
      assert Link(blocks, p, k + 1 + i);
    }
  }

  lemma AppliedNumber(e: Engine, s: Snapshot, headers: seq<Header>)
    requires Applied(e, s, headers).Ok?
    ensures Applied(e, s, headers).value.number == s.number + |headers|
  {
    if headers != [] {
      var n := |headers| - 1;
      var t := Replay(e, s, headers[..n]).value;
      StepNames(e, t, headers[n]);
    }
  }

  /** The header is next after the snapshot. */
  predicate Extends(snap: Snapshot, header: Header) {
    snap.number + 1 == header.number && snap.hash == header.parentHash
  }

  lemma OneHeader(e: Engine, s: Snapshot, h: Header)
    requires h.number == s.number + 1
    ensures Applied(e, s, [h]) == Step(e, s, h)
  {
    assert Replay(e, s, [h][..0]) == Ok(s);
    assert Contiguous(s.number, [h]);
  }
}

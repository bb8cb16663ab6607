/**
 The block tree as a function of the blocks accepted so far.

 A log lists the accepted blocks in order of arrival.  Everything the fork-choice store keeps
 (entries, canonical index, head, safe and finalized blocks) is defined here directly from the
 log, with no reference to how the store updates itself.
 */
module ForkTree {
  import opened Primitives

  datatype Record = Record(header: Header, elHash: Hash, payload: seq<byte>)

  datatype Entry = Entry(header: Header, td: nat)

  predicate Numbered(h: Header) {
    h.parentHash.HashOf? && h.number == h.parentHash.header.number + 1
  }

  // ----- Paths from genesis

  ghost predicate Rooted(g: Header, h: Hash)
    decreases h
  {
    && h.HashOf?
    && g.number == 0
    && (h.header == g || (Numbered(h.header) && Rooted(g, h.header.parentHash)))
  }

  /** The blocks from genesis to `h`, in order. */
  ghost function Path(g: Header, h: Hash): (p: seq<Hash>)
    requires Rooted(g, h)
    ensures |p| == h.header.number + 1 && p[h.header.number] == h && p[0] == HashOf(g)
    decreases h
  {
    if h.header == g then [h] else Path(g, h.header.parentHash) + [h]
  }

  function GenesisWeight(g: Header): nat {
    if g.difficulty == 0 then 1 else g.difficulty
  }

  /** Total difficulty: the sum along the path from genesis. */
  ghost function Weight(g: Header, h: Hash): nat
    requires Rooted(g, h)
    decreases h
  {
    if h.header == g then GenesisWeight(g) else Weight(g, h.header.parentHash) + h.header.difficulty
  }

  /** The path to an ancestor is a prefix of the path. */
  lemma {:induction false} PathToAncestor(g: Header, h: Hash, i: nat)
    requires Rooted(g, h) && i <= h.header.number
    ensures Rooted(g, Path(g, h)[i]) && Path(g, h)[i].header.number == i
    ensures Path(g, Path(g, h)[i]) == Path(g, h)[..i + 1]
    decreases h
  {
    if i == h.header.number {
      assert Path(g, h)[..i + 1] == Path(g, h);
    } else {
      PathToAncestor(g, h.header.parentHash, i);
      assert Path(g, h)[..i + 1] == Path(g, h.header.parentHash)[..i + 1];
    }
  }

  /** The highest position below `n` at which the two chains hold the same block, or -1. */
  ghost function ForkBelow(p: seq<Hash>, q: seq<Hash>, n: nat): (i: int)
    requires n <= |p| && n <= |q|
    ensures -1 <= i < n
    ensures i >= 0 ==> p[i] == q[i]
    ensures forall k :: i < k < n ==> p[k] != q[k]
  {
    if n == 0 then -1 else if p[n - 1] == q[n - 1] then n - 1 else ForkBelow(p, q, n - 1)
  }

  /** The number of the highest common block of two chains. */
  ghost function Fork(p: seq<Hash>, q: seq<Hash>): int {
    ForkBelow(p, q, if |p| < |q| then |p| else |q|)
  }

  /** Zero when `q` extends `p` by one block; otherwise how far `q`'s tip is above the fork. */
  ghost function ReorgDepth(p: seq<Hash>, q: seq<Hash>): int {
    if Fork(p, q) == |p| - 1 && |q| == |p| + 1 then 0 else |q| - 1 - Fork(p, q)
  }

  // ----- The state a log stands for

  ghost function Known(g: Header, log: seq<Record>): set<Hash> {
    {HashOf(g)} + set r | r in log :: HashOf(r.header)
  }

  ghost predicate Accepts(g: Header, log: seq<Record>, r: Record) {
    HashOf(r.header) !in Known(g, log) && r.header.parentHash in Known(g, log)
  }

  ghost predicate IsLog(g: Header, log: seq<Record>) {
    && g.number == 0
    && (log == [] ||
        var n := |log| - 1;
        IsLog(g, log[..n]) && Accepts(g, log[..n], log[n]) && Numbered(log[n].header))
  }

  lemma KnownNext(g: Header, log: seq<Record>, r: Record)
    ensures Known(g, log + [r]) == Known(g, log) + {HashOf(r.header)}
  {
  }

  lemma {:induction false} KnownIsRooted(g: Header, log: seq<Record>, h: Hash)
    requires IsLog(g, log) && h in Known(g, log)
    ensures Rooted(g, h) && (h.header == g || h.header.parentHash in Known(g, log))
  {
    if log != [] {
      var n := |log| - 1;
      assert log == log[..n] + [log[n]];
      KnownNext(g, log[..n], log[n]);
      if h in Known(g, log[..n]) {
        KnownIsRooted(g, log[..n], h);
      } else {
        KnownIsRooted(g, log[..n], h.header.parentHash);
      }
    }
  }

  /** The head: the first of the heaviest blocks to arrive. */
  ghost function Best(g: Header, log: seq<Record>): (h: Hash)
    requires IsLog(g, log)
    ensures h in Known(g, log) && Rooted(g, h)
  {
    if log == [] then HashOf(g)
    else
      var n := |log| - 1;
      var best, latest := Best(g, log[..n]), HashOf(log[n].header);
      assert log == log[..n] + [log[n]];
      KnownNext(g, log[..n], log[n]);
      KnownIsRooted(g, log, latest);
      if Weight(g, latest) > Weight(g, best) then latest else best
  }

  /** No accepted block outweighs the head. */
  lemma {:induction false} BestIsHeaviest(g: Header, log: seq<Record>, h: Hash)
    requires IsLog(g, log) && h in Known(g, log)
    ensures Rooted(g, h) && Weight(g, h) <= Weight(g, Best(g, log))
  {
    KnownIsRooted(g, log, h);
    if log != [] {
      var n := |log| - 1;
      assert log == log[..n] + [log[n]];
      KnownNext(g, log[..n], log[n]);
      if h in Known(g, log[..n]) {
        BestIsHeaviest(g, log[..n], h);
      }
    }
  }

  lemma {:induction false} LogPrefix(g: Header, log: seq<Record>, k: nat)
    requires IsLog(g, log) && k <= |log|
    ensures IsLog(g, log[..k])
  {
    if k == |log| {
      assert log[..k] == log;
    } else {
      LogPrefix(g, log[..|log| - 1], k);
      assert log[..|log| - 1][..k] == log[..k];
    }
  }

  /** Ties keep the block that came first: once a block of the final weight has arrived, the
      head no longer changes. */
  lemma {:induction false} TiesKeepFirst(g: Header, log: seq<Record>, k: nat, h: Hash)
    requires IsLog(g, log) && k <= |log| && IsLog(g, log[..k])
    requires h in Known(g, log[..k]) && Rooted(g, h) && Weight(g, h) == Weight(g, Best(g, log))
    ensures Best(g, log) == Best(g, log[..k])
  {
    if k == |log| {
      assert log[..k] == log;
    } else {
      var n := |log| - 1;
      assert log[..n][..k] == log[..k];
      assert forall r :: r in log[..k] ==> r in log[..n];
      BestIsHeaviest(g, log[..n], h);
      TiesKeepFirst(g, log[..n], k, h);
    }
  }

  ghost predicate IsBlocks(g: Header, log: seq<Record>, blocks: map<Hash, Entry>) {
    && blocks.Keys == Known(g, log)
    && forall h {:trigger h in blocks} :: h in blocks ==> Rooted(g, h) && blocks[h] == Entry(h.header, Weight(g, h))
  }

  // ----- Stored chains

  /** Block `i` of `p` has number `i`, and its parent is block `i - 1`. */
  ghost predicate Succeeds(p: seq<Hash>, i: nat)
    requires i < |p|
  {
    && p[i].HashOf?
    && p[i].header.number == i
    && (i > 0 ==> p[i].header.parentHash == p[i - 1])
  }

  /** Block sequences that meet at a number agree up to that number. */
  lemma {:induction false} LinksMeet(p: seq<Hash>, q: seq<Hash>, i: nat)
    requires i < |p| && i < |q| && p[i] == q[i]
    requires forall k :: 0 <= k <= i ==> Succeeds(p, k) && Succeeds(q, k)
    ensures p[..i + 1] == q[..i + 1]
  {
    if i > 0 {
      assert Succeeds(p, i) && Succeeds(q, i);
      LinksMeet(p, q, i - 1);
      assert p[..i + 1] == p[..i] + [p[i]] && q[..i + 1] == q[..i] + [q[i]];
    }
  }

  /** Block `i` of `p` follows block `i - 1` and is stored. */
  ghost predicate Link(blocks: map<Hash, Entry>, p: seq<Hash>, i: nat)
    requires i < |p|
  {
    Succeeds(p, i) && p[i] in blocks && blocks[p[i]].header == p[i].header
  }

  /** `p` is a chain of stored blocks, lowest first. */
  ghost predicate Chain(blocks: map<Hash, Entry>, p: seq<Hash>) {
    p != [] && forall i :: 0 <= i < |p| ==> Link(blocks, p, i)
  }

  /** `e` is the entry of a block of `p`. */
  ghost predicate IsOn(blocks: map<Hash, Entry>, p: seq<Hash>, e: Entry) {
    && e.header.number < |p|
    && HashOf(e.header) == p[e.header.number]
    && HashOf(e.header) in blocks
    && e == blocks[HashOf(e.header)]
  }

  ghost predicate IsTip(blocks: map<Hash, Entry>, p: seq<Hash>, e: Entry) {
    IsOn(blocks, p, e) && e.header.number == |p| - 1
  }

  /** One step down a chain. */
  lemma StepDown(blocks: map<Hash, Entry>, p: seq<Hash>, e: Entry)
    requires Chain(blocks, p) && IsOn(blocks, p, e) && 0 < e.header.number
    ensures e.header.parentHash in blocks && IsOn(blocks, p, blocks[e.header.parentHash])
    ensures blocks[e.header.parentHash].header.number == e.header.number - 1
  {
    assert Link(blocks, p, e.header.number) && Link(blocks, p, e.header.number - 1);
  }

  lemma OnChain(blocks: map<Hash, Entry>, p: seq<Hash>, i: nat)
    requires Chain(blocks, p) && i < |p|
    ensures p[i] in blocks && IsOn(blocks, p, blocks[p[i]]) && blocks[p[i]].header.number == i
  {
    assert Link(blocks, p, i);
  }

  lemma {:induction false} PathIsChain(g: Header, log: seq<Record>, blocks: map<Hash, Entry>, h: Hash)
    requires IsLog(g, log) && IsBlocks(g, log, blocks) && h in blocks && Rooted(g, h)
    ensures Chain(blocks, Path(g, h))
    decreases h
  {
    var p := Path(g, h);
    KnownIsRooted(g, log, h);
    if h.header == g {
      assert Link(blocks, p, 0);
    } else {
      var parent := h.header.parentHash;
      PathIsChain(g, log, blocks, parent);
      forall i | 0 <= i < |p|
        ensures Link(blocks, p, i)
      {
        if i < |p| - 1 {
          assert Link(blocks, Path(g, parent), i);
        }
      }
    }
  }

  lemma ChainsMeet(blocks: map<Hash, Entry>, p: seq<Hash>, q: seq<Hash>, i: nat)
    requires Chain(blocks, p) && Chain(blocks, q) && i < |p| && i < |q| && p[i] == q[i]
    ensures p[..i + 1] == q[..i + 1]
  {
    forall k | 0 <= k <= i
      ensures Succeeds(p, k) && Succeeds(q, k)
    {
      assert Link(blocks, p, k) && Link(blocks, q, k);
    }
    LinksMeet(p, q, i);
  }

  /** On stored chains from one genesis the fork splits them cleanly: the same blocks up to it,
      no common block after it. */
  lemma ForkSplits(blocks: map<Hash, Entry>, p: seq<Hash>, q: seq<Hash>, i: nat, j: nat)
    requires Chain(blocks, p) && Chain(blocks, q) && p[0] == q[0]
    ensures 0 <= Fork(p, q) < |p| && Fork(p, q) < |q|
    ensures p[..Fork(p, q) + 1] == q[..Fork(p, q) + 1]
    ensures Fork(p, q) < i < |p| && Fork(p, q) < j < |q| ==> p[i] != q[j]
  {
    ChainsMeet(blocks, p, q, Fork(p, q));
    if i < |p| && j < |q| && p[i] == q[j] {
      assert Link(blocks, p, i) && Link(blocks, q, j);
    }
  }

  ghost function ElHashes(g: Header, log: seq<Record>): map<Hash, Hash> {
    if log == [] then map[HashOf(g) := HashOf(g)]
    else
      var n := |log| - 1;
      ElHashes(g, log[..n])[HashOf(log[n].header) := log[n].elHash]
  }

  ghost function Payloads(log: seq<Record>): map<Hash, seq<byte>> {
    if log == [] then map[]
    else
      var n := |log| - 1;
      if |log[n].payload| > 0 then Payloads(log[..n])[HashOf(log[n].header) := log[n].payload]
      else Payloads(log[..n])
  }

  /** The tables hold the EL hash and the payload each block was accepted with; a block without a
      payload has none, and genesis is its own EL block. */
  lemma {:induction false} TablesHoldRecords(g: Header, log: seq<Record>, r: Record)
    requires IsLog(g, log) && r in log
    ensures HashOf(r.header) in ElHashes(g, log) && ElHashes(g, log)[HashOf(r.header)] == r.elHash
    ensures HashOf(r.header) in Payloads(log) <==> r.payload != []
    ensures r.payload != [] ==> Payloads(log)[HashOf(r.header)] == r.payload
    ensures HashOf(g) in ElHashes(g, log) && ElHashes(g, log)[HashOf(g)] == HashOf(g) && HashOf(g) !in Payloads(log)
  {
    var n := |log| - 1;
    assert log == log[..n] + [log[n]];
    GenesisEntry(g, log);
    if r in log[..n] {
      TablesHoldRecords(g, log[..n], r);
      assert HashOf(r.header) in Known(g, log[..n]);
    } else {
      PayloadsAreKnown(g, log[..n]);
    }
  }

  lemma {:induction false} PayloadsAreKnown(g: Header, log: seq<Record>)
    ensures Payloads(log).Keys <= Known(g, log)
  {
    if log != [] {
      var n := |log| - 1;
      PayloadsAreKnown(g, log[..n]);
      KnownNext(g, log[..n], log[n]);
      assert log == log[..n] + [log[n]];
    }
  }

  lemma {:induction false} GenesisEntry(g: Header, log: seq<Record>)
    requires IsLog(g, log)
    ensures HashOf(g) in ElHashes(g, log) && ElHashes(g, log)[HashOf(g)] == HashOf(g) && HashOf(g) !in Payloads(log)
  {
    if log != [] {
      GenesisEntry(g, log[..|log| - 1]);
    }
  }

  /** The canonical index maps exactly the numbers on the path to the blocks on it. */
  ghost predicate IsIndex(numbers: map<nat, Hash>, path: seq<Hash>) {
    && (forall i: nat :: i in numbers <==> i < |path|)
    && (forall i: nat :: i < |path| ==> numbers[i] == path[i])
  }

  /** Entering a block on top of the canonical chain keeps the index exact just when the block is
      numbered one above the head. */
  lemma ExtensionKeepsIndexIff(numbers: map<nat, Hash>, p: seq<Hash>, number: nat, h: Hash)
    requires IsIndex(numbers, p)
    ensures IsIndex(numbers[number := h], p + [h]) <==> number == |p|
  {
    if number != |p| {
      assert |p| !in numbers[number := h];
    }
  }

  function SafeNumber(epoch: nat, head: nat): (n: nat)
    ensures n <= head
  {
    if epoch == 0 then 0 else (head / epoch) * epoch
  }

  function FinalNumber(epoch: nat, head: nat): (n: nat)
    ensures n <= head
  {
    if epoch == 0 || head / epoch < 2 then 0
    else
      assert (head / epoch) * epoch <= head;
      assert (head / epoch - 2) * epoch == (head / epoch) * epoch - 2 * epoch;
      (head / epoch - 2) * epoch
  }

  /** The safe number is the last multiple of the epoch length at or below the head. */
  lemma SafeIsLastBoundary(epoch: pos, head: nat)
    ensures SafeNumber(epoch, head) <= head < SafeNumber(epoch, head) + epoch
    ensures exists k: nat {:trigger k * epoch} :: SafeNumber(epoch, head) == k * epoch
  {
    assert head == (head / epoch) * epoch + head % epoch;
  }

  /** The finalized number is two epochs below the safe one, or genesis. */
  lemma FinalIsTwoEpochsBack(epoch: pos, head: nat)
    ensures FinalNumber(epoch, head) ==
      if SafeNumber(epoch, head) >= 2 * epoch then SafeNumber(epoch, head) - 2 * epoch else 0
  {
    var q := head / epoch;
    assert (q - 2) * epoch == q * epoch - 2 * epoch;
    if q < 2 {
      assert q == 0 || q == 1;
      assert 0 * epoch == 0 && 1 * epoch == epoch;
    } else {
      assert (q - 2) * epoch >= 0;
    }
  }

  // ----- The whole state

  /** The fields of the store. */
  datatype Tables = Tables(
    blocks: map<Hash, Entry>,
    numbers: map<nat, Hash>,
    elHashes: map<Hash, Hash>,
    payloads: map<Hash, seq<byte>>,
    head: Entry,
    safe: Entry,
    finalized: Entry)

  /** The canonical chain: genesis to the head. */
  ghost function Canon(g: Header, log: seq<Record>): (p: seq<Hash>)
    requires IsLog(g, log)
    ensures p != [] && p[0] == HashOf(g) && p[|p| - 1] == Best(g, log)
  {
    Path(g, Best(g, log))
  }

  /** Head, index, safe and finalized block all follow chain `p`. */
  ghost predicate Follows(t: Tables, epoch: nat, p: seq<Hash>) {
    match t
    case Tables(blocks, numbers, _, _, head, safe, finalized) =>
      && p != []
      && IsTip(blocks, p, head)
      && IsIndex(numbers, p)
      && IsOn(blocks, p, safe) && safe.header.number == SafeNumber(epoch, |p| - 1)
      && IsOn(blocks, p, finalized) && finalized.header.number == FinalNumber(epoch, |p| - 1)
  }

  /** The block tables hold exactly the blocks of the log. */
  ghost predicate Holds(g: Header, log: seq<Record>, t: Tables) {
    match t
    case Tables(blocks, _, elHashes, payloads, _, _, _) =>
      && IsLog(g, log)
      && IsBlocks(g, log, blocks)
      && elHashes == ElHashes(g, log)
      && payloads == Payloads(log)
  }

  /** The two sides of a store's state.  StandsFor quantifies over them, rather than joining them,
      so that a proof that only passes the state along does not open either. */
  datatype Aspect = Contents | Choice

  ghost predicate IsRight(a: Aspect, g: Header, epoch: nat, log: seq<Record>, t: Tables)
    requires IsLog(g, log)
  {
    match a
    case Contents => Holds(g, log, t)
    case Choice => Follows(t, epoch, Canon(g, log))
  }

  /** `t` is the state that `log` stands for, in its contents and in its choice of chain. */
  ghost predicate StandsFor(g: Header, epoch: nat, log: seq<Record>, t: Tables) {
    IsLog(g, log) && forall a: Aspect :: IsRight(a, g, epoch, log, t)
  }

  lemma Facts(g: Header, epoch: nat, log: seq<Record>, t: Tables)
    requires StandsFor(g, epoch, log, t)
    ensures Holds(g, log, t) && Follows(t, epoch, Canon(g, log))
  {
    assert IsRight(Contents, g, epoch, log, t) && IsRight(Choice, g, epoch, log, t);
  }

  /** A log stands for one state only. */
  lemma StateIsDetermined(g: Header, epoch: nat, log: seq<Record>, t: Tables, u: Tables)
    requires StandsFor(g, epoch, log, t) && StandsFor(g, epoch, log, u)
    ensures t == u
  {
    Facts(g, epoch, log, t);
    Facts(g, epoch, log, u);
    assert t.blocks == u.blocks;
    SameChoice(t, epoch, u, epoch, Canon(g, log));
  }

  /** The safe and the finalized block are ancestors of the head, and of one another. */
  lemma SafeAndFinalizedAreAncestors(g: Header, epoch: nat, log: seq<Record>, t: Tables)
    requires StandsFor(g, epoch, log, t)
    ensures
      var safe, finalized := HashOf(t.safe.header), HashOf(t.finalized.header);
      && Rooted(g, safe) && Rooted(g, finalized)
      && Path(g, finalized) <= Path(g, safe) <= Canon(g, log)
      && safe.header.number == SafeNumber(epoch, |Canon(g, log)| - 1)
      && finalized.header.number == FinalNumber(epoch, |Canon(g, log)| - 1)
  {
    Facts(g, epoch, log, t);
    var head, best := |Canon(g, log)| - 1, Best(g, log);
    FinalBeforeSafe(epoch, head);
    PathToAncestor(g, best, SafeNumber(epoch, head));
    PathToAncestor(g, best, FinalNumber(epoch, head));
  }

  lemma FinalBeforeSafe(epoch: nat, head: nat)
    ensures FinalNumber(epoch, head) <= SafeNumber(epoch, head)
  {
    if epoch > 0 && head / epoch >= 2 {
      assert (head / epoch - 2) * epoch == (head / epoch) * epoch - 2 * epoch;
    }
  }

  /** Stores that follow the same chain agree on the index and the head, and, with the same epoch
      length, on the safe and the finalized block. */
  lemma SameChoice(t: Tables, epoch: nat, u: Tables, epoch': nat, p: seq<Hash>)
    requires Follows(t, epoch, p) && Follows(u, epoch', p)
    ensures t.numbers == u.numbers && t.head.header == u.head.header
    ensures epoch == epoch' ==> t.safe.header == u.safe.header && t.finalized.header == u.finalized.header
  {
  }

  lemma GenesisStandsForEmptyLog(g: Header, epoch: nat)
    requires g.number == 0
    ensures
      var entry := Entry(g, GenesisWeight(g));
      StandsFor(g, epoch, [], Tables(map[HashOf(g) := entry], map[0 := HashOf(g)],
                                     map[HashOf(g) := HashOf(g)], map[], entry, entry, entry))
  {
    assert Path(g, HashOf(g)) == [HashOf(g)];
  }

  // ----- Accepting one block

  lemma LogNext(g: Header, log: seq<Record>, r: Record)
    requires IsLog(g, log) && Accepts(g, log, r) && Numbered(r.header)
    ensures IsLog(g, log + [r])
    ensures ElHashes(g, log + [r]) == ElHashes(g, log)[HashOf(r.header) := r.elHash]
    ensures Payloads(log + [r]) ==
      if |r.payload| > 0 then Payloads(log)[HashOf(r.header) := r.payload] else Payloads(log)
  {
    assert (log + [r])[..|log|] == log;
  }

  lemma WeightNext(g: Header, log: seq<Record>, r: Record)
    requires IsLog(g, log) && Accepts(g, log, r) && Numbered(r.header)
    ensures Rooted(g, r.header.parentHash) && Rooted(g, HashOf(r.header))
    ensures Weight(g, HashOf(r.header)) == Weight(g, r.header.parentHash) + r.header.difficulty
    ensures Path(g, HashOf(r.header)) == Path(g, r.header.parentHash) + [HashOf(r.header)]
  {
    KnownIsRooted(g, log, r.header.parentHash);
  }

  lemma BestNext(g: Header, log: seq<Record>, r: Record)
    requires IsLog(g, log) && Accepts(g, log, r) && Numbered(r.header)
    ensures IsLog(g, log + [r]) && Rooted(g, HashOf(r.header))
    ensures Best(g, log + [r]) ==
      if Weight(g, HashOf(r.header)) > Weight(g, Best(g, log)) then HashOf(r.header) else Best(g, log)
  {
    LogNext(g, log, r);
    WeightNext(g, log, r);
    assert (log + [r])[..|log|] == log;
  }

  lemma BlocksNext(g: Header, log: seq<Record>, blocks: map<Hash, Entry>, r: Record)
    requires IsLog(g, log) && IsBlocks(g, log, blocks) && Accepts(g, log, r) && Numbered(r.header)
    ensures
      var td := blocks[r.header.parentHash].td + r.header.difficulty;
      IsBlocks(g, log + [r], blocks[HashOf(r.header) := Entry(r.header, td)])
  {
    WeightNext(g, log, r);
    KnownNext(g, log, r);
  }

  /** The tables with one more block entered, before any change of head. */
  function WithBlock(t: Tables, r: Record): Tables
    requires r.header.parentHash in t.blocks
  {
    var hash := HashOf(r.header);
    var td := t.blocks[r.header.parentHash].td + r.header.difficulty;
    t.(blocks := t.blocks[hash := Entry(r.header, td)],
       elHashes := t.elHashes[hash := r.elHash],
       payloads := if |r.payload| > 0 then t.payloads[hash := r.payload] else t.payloads)
  }

  ghost predicate Acceptable(g: Header, epoch: nat, log: seq<Record>, t: Tables, r: Record) {
    && StandsFor(g, epoch, log, t)
    && HashOf(r.header) !in t.blocks
    && r.header.parentHash in t.blocks
    && Numbered(r.header)
  }

  lemma AcceptableFacts(g: Header, epoch: nat, log: seq<Record>, t: Tables, r: Record)
    requires Acceptable(g, epoch, log, t, r)
    ensures Accepts(g, log, r) && Holds(g, log + [r], WithBlock(t, r))
    ensures Rooted(g, HashOf(r.header))
    ensures WithBlock(t, r).blocks[HashOf(r.header)].td == Weight(g, HashOf(r.header))
    ensures t.head.td == Weight(g, Best(g, log)) && HashOf(t.head.header) == Best(g, log)
  {
    Facts(g, epoch, log, t);
    LogNext(g, log, r);
    BlocksNext(g, log, t.blocks, r);
    WeightNext(g, log, r);
  }

  lemma SubmitByTables(g: Header, epoch: nat, log: seq<Record>, t: Tables, r: Record)
    requires StandsFor(g, epoch, log, t)
    ensures Submit(g, log, r) ==
      if HashOf(r.header) !in t.blocks && r.header.parentHash in t.blocks then log + [r] else log
  {
    Facts(g, epoch, log, t);
  }

  ghost predicate HeavierThanHead(t: Tables, r: Record)
    requires r.header.parentHash in t.blocks
  {
    WithBlock(t, r).blocks[HashOf(r.header)].td > t.head.td
  }

  /** A block no heavier than the head leaves the canonical chain alone. */
  lemma AcceptedAside(g: Header, epoch: nat, log: seq<Record>, t: Tables, r: Record)
    requires Acceptable(g, epoch, log, t, r)
    requires !HeavierThanHead(t, r)
    ensures StandsFor(g, epoch, log + [r], WithBlock(t, r)) && Canon(g, log + [r]) == Canon(g, log)
  {
    Facts(g, epoch, log, t);
    AcceptableFacts(g, epoch, log, t, r);
    BestNext(g, log, r);
    FollowsStill(t, WithBlock(t, r), epoch, Canon(g, log));
  }

  lemma FollowsStill(t: Tables, t': Tables, epoch: nat, p: seq<Hash>)
    requires Follows(t, epoch, p)
    requires forall h :: h in t.blocks ==> h in t'.blocks && t'.blocks[h] == t.blocks[h]
    requires t'.numbers == t.numbers && t'.head == t.head && t'.safe == t.safe && t'.finalized == t.finalized
    ensures Follows(t', epoch, p)
  {
  }

  /** A heavier block becomes the tip of the canonical chain, on which the old chain is stored. */
  lemma ReadyForHead(g: Header, epoch: nat, log: seq<Record>, t: Tables, r: Record)
    requires Acceptable(g, epoch, log, t, r) && HeavierThanHead(t, r)
    ensures Holds(g, log + [r], WithBlock(t, r))
    ensures
      var t', p, q := WithBlock(t, r), Canon(g, log), Canon(g, log + [r]);
      && Follows(t', epoch, p) && Chain(t'.blocks, p) && Chain(t'.blocks, q)
      && IsTip(t'.blocks, q, t'.blocks[HashOf(r.header)]) && q[|q| - 1] !in p
  {
    Facts(g, epoch, log, t);
    AcceptableFacts(g, epoch, log, t, r);
    BestNext(g, log, r);
    var t', hash := WithBlock(t, r), HashOf(r.header);
    FollowsStill(t, t', epoch, Canon(g, log));
    PathIsChain(g, log, t.blocks, Best(g, log));
    TipIsNew(t.blocks, Canon(g, log), hash);
    PathIsChain(g, log + [r], t'.blocks, Best(g, log));
    PathIsChain(g, log + [r], t'.blocks, hash);
  }

  lemma TipIsNew(blocks: map<Hash, Entry>, p: seq<Hash>, h: Hash)
    requires Chain(blocks, p) && h !in blocks
    ensures h !in p
  {
    forall i | 0 <= i < |p|
      ensures p[i] != h
    {
      assert Link(blocks, p, i);
    }
  }

  lemma {:induction false} ElHashesKeys(g: Header, log: seq<Record>)
    ensures ElHashes(g, log).Keys == Known(g, log)
  {
    if log != [] {
      var n := |log| - 1;
      ElHashesKeys(g, log[..n]);
      KnownNext(g, log[..n], log[n]);
      assert log == log[..n] + [log[n]];
    }
  }

  lemma CanonIsStored(g: Header, epoch: nat, log: seq<Record>, t: Tables)
    requires StandsFor(g, epoch, log, t)
    ensures Chain(t.blocks, Canon(g, log)) && Follows(t, epoch, Canon(g, log))
    ensures forall h :: h in t.blocks ==> h in t.elHashes
  {
    Facts(g, epoch, log, t);
    PathIsChain(g, log, t.blocks, Best(g, log));
    ElHashesKeys(g, log);
  }

  /** The reported depth is zero exactly when the new head is a child of the old one. */
  lemma DepthIsZeroIffChild(g: Header, log: seq<Record>, r: Record, blocks: map<Hash, Entry>)
    requires IsLog(g, log) && Accepts(g, log, r) && Numbered(r.header)
    requires IsLog(g, log + [r]) && IsBlocks(g, log + [r], blocks)
    requires Best(g, log + [r]) == HashOf(r.header)
    ensures ReorgDepth(Canon(g, log), Canon(g, log + [r])) >= 0
    ensures ReorgDepth(Canon(g, log), Canon(g, log + [r])) == 0 <==> r.header.parentHash == Best(g, log)
  {
    KnownNext(g, log, r);
    PathIsChain(g, log + [r], blocks, Best(g, log));
    PathIsChain(g, log + [r], blocks, HashOf(r.header));
    var p, q := Canon(g, log), Canon(g, log + [r]);
    assert q[|q| - 1] !in p by {
      var known := map h | h in blocks && h in Known(g, log) :: blocks[h];
      PathIsChain(g, log, known, Best(g, log));
      TipIsNew(known, p, HashOf(r.header));
    }
    ExtendsByOne(blocks, p, q);
  }

  /** The new head is a child of the old one exactly when its chain is one block longer. */
  lemma ExtendsByOne(blocks: map<Hash, Entry>, p: seq<Hash>, q: seq<Hash>)
    requires Chain(blocks, p) && Chain(blocks, q) && q[0] == p[0] && q[|q| - 1] !in p
    ensures q[|q| - 1].HashOf? && 0 <= Fork(p, q) < |q| - 1
    ensures q[|q| - 1].header.parentHash == p[|p| - 1] <==> Fork(p, q) == |p| - 1 && |q| == |p| + 1
    ensures q[|q| - 1].header.parentHash == p[|p| - 1] ==> q == p + [q[|q| - 1]]
  {
    var n := |q| - 1;
    assert Link(blocks, q, n);
    OnChain(blocks, q, n - 1);
    OnChain(blocks, p, |p| - 1);
    if q[n].header.parentHash == p[|p| - 1] {
      ChainsMeet(blocks, p, q, n - 1);
      assert q == q[..n] + [q[n]];
      assert p[..n] == p;
    }
  }

  ghost function Members(q: seq<Hash>): set<Hash> {
    set h | h in q
  }

  /** The blocks of `q` that are not on `p`. */
  ghost function NewBlocks(p: seq<Hash>, q: seq<Hash>): set<Hash> {
    set h | h in q && h !in p
  }

  /** The depth reported for a reorganisation is the number of blocks of the new chain that were not
      on the old one. */
  lemma DepthCountsNewBlocks(blocks: map<Hash, Entry>, p: seq<Hash>, q: seq<Hash>)
    requires Chain(blocks, p) && Chain(blocks, q) && p[0] == q[0] && !(Fork(p, q) == |p| - 1 && |q| == |p| + 1)
    ensures ReorgDepth(p, q) == |NewBlocks(p, q)|
  {
    var f := Fork(p, q);
    ForkSplits(blocks, p, q, 0, 0);
    TailSize(blocks, q, f + 1, |q|);
    var tail := Members(q[f + 1..]);
    assert q[f + 1..|q|] == q[f + 1..];
    forall h
      ensures h in tail <==> h in NewBlocks(p, q)
    {
      TailIsNew(blocks, p, q, h);
    }
    assert tail == NewBlocks(p, q);
  }

  lemma TailIsNew(blocks: map<Hash, Entry>, p: seq<Hash>, q: seq<Hash>, h: Hash)
    requires Chain(blocks, p) && Chain(blocks, q) && p[0] == q[0] && 0 <= Fork(p, q) < |q|
    ensures h in q[Fork(p, q) + 1..] <==> h in q && h !in p
  {
    var f := Fork(p, q);
    ForkSplits(blocks, p, q, 0, 0);
    if h in q {
      var j :| 0 <= j < |q| && q[j] == h;
      assert Link(blocks, q, j);
      if j <= f {
        assert p[..f + 1][j] == q[..f + 1][j];
        forall k | f < k < |q|
          ensures q[k] != h
        {
          assert Link(blocks, q, k);
        }
      } else {
        assert q[f + 1..][j - f - 1] == h;
        forall k | 0 <= k < |p|
          ensures p[k] != h
        {
          assert Link(blocks, p, k);
          ForkSplits(blocks, p, q, k, j);
        }
      }
    }
  }

  lemma {:induction false} TailSize(blocks: map<Hash, Entry>, q: seq<Hash>, i: nat, j: nat)
    requires Chain(blocks, q) && i <= j <= |q|
    ensures |Members(q[i..j])| == j - i
  {
    var tail := Members(q[i..j]);
    if i == j {
      assert tail == {};
    } else {
      TailSize(blocks, q, i, j - 1);
      var front := Members(q[i..j - 1]);
      assert q[i..j] == q[i..j - 1] + [q[j - 1]];
      assert tail == front + {q[j - 1]};
      assert Link(blocks, q, j - 1);
      forall k | i <= k < j - 1
        ensures q[k] != q[j - 1]
      {
        assert Link(blocks, q, k);
      }
    }
  }

  /** What a submission that takes the log from `before` to `after` reports about the head. */
  ghost predicate HeadMove(g: Header, before: seq<Record>, after: seq<Record>, headChanged: bool, depth: nat) {
    && IsLog(g, before) && IsLog(g, after)
    && headChanged == (Best(g, after) != Best(g, before))
    && depth == if headChanged then ReorgDepth(Canon(g, before), Canon(g, after)) else 0
  }

  /** Where a submission leaves the canonical chain: the same, one block longer, or, when a
      non-zero depth is reported, on another branch that ends in the submitted block. */
  lemma CanonMoves(g: Header, epoch: nat, before: seq<Record>, r: Record, after: seq<Record>, t: Tables,
                   headChanged: bool, depth: nat)
    requires HeadMove(g, before, after, headChanged, depth) && after == Submit(g, before, r)
    requires r.header.parentHash in Known(g, before) ==> Numbered(r.header)
    requires StandsFor(g, epoch, after, t)
    ensures !headChanged ==> Canon(g, after) == Canon(g, before)
    ensures headChanged ==> Best(g, after) == HashOf(r.header) && Numbered(r.header)
    ensures headChanged && depth == 0 ==> Canon(g, after) == Canon(g, before) + [HashOf(r.header)]
    ensures r.header.parentHash == Best(g, before) ==> depth == 0
  {
    Facts(g, epoch, after, t);
    if headChanged {
      assert Accepts(g, before, r);
      BestNext(g, before, r);
      DepthIsZeroIffChild(g, before, r, t.blocks);
      WeightNext(g, before, r);
    }
  }

  /** A child of the head with positive difficulty cannot be known already, and takes the head. */
  lemma ChildTakesHead(g: Header, log: seq<Record>, r: Record)
    requires IsLog(g, log) && Numbered(r.header) && r.header.parentHash == Best(g, log) && r.header.difficulty > 0
    ensures Submit(g, log, r) == log + [r] && IsLog(g, log + [r])
    ensures Canon(g, log + [r]) == Canon(g, log) + [HashOf(r.header)]
  {
    if HashOf(r.header) in Known(g, log) {
      BestIsHeaviest(g, log, HashOf(r.header));
    }
    BestNext(g, log, r);
  }

  // ----- Runs

  /** What the store does with one submitted block: take it or leave the log as it is. */
  ghost function Submit(g: Header, log: seq<Record>, r: Record): seq<Record> {
    if Accepts(g, log, r) then log + [r] else log
  }

  /** The log after a run of submissions, in any order and with any repetitions. */
  ghost function Run(g: Header, inputs: seq<Record>): seq<Record> {
    if inputs == [] then []
    else
      var n := |inputs| - 1;
      Submit(g, Run(g, inputs[..n]), inputs[n])
  }

  lemma {:induction false} RunIsLog(g: Header, inputs: seq<Record>)
    requires g.number == 0 && forall r :: r in inputs ==> Numbered(r.header)
    ensures IsLog(g, Run(g, inputs))
    ensures forall r :: r in Run(g, inputs) ==> r in inputs
  {
    if inputs != [] {
      var n := |inputs| - 1;
      RunIsLog(g, inputs[..n]);
      var log := Run(g, inputs[..n]);
      assert (log + [inputs[n]])[..|log|] == log;
    }
  }

  /** Replaying a log accepts every record of it. */
  lemma {:induction false} ReplayAcceptsAll(g: Header, log: seq<Record>)
    requires IsLog(g, log)
    ensures Run(g, log) == log
  {
    if log != [] {
      ReplayAcceptsAll(g, log[..|log| - 1]);
    }
  }

  /** Every prefix of a run's log is the log at an earlier moment of the run. */
  lemma {:induction false} PrefixIsEarlier(g: Header, inputs: seq<Record>, m: nat) returns (n: nat)
    requires m <= |Run(g, inputs)|
    ensures n <= |inputs| && Run(g, inputs[..n]) == Run(g, inputs)[..m]
  {
    if m == |Run(g, inputs)| {
      n := |inputs|;
      assert inputs[..n] == inputs;
      assert Run(g, inputs)[..m] == Run(g, inputs);
    } else {
      var front := inputs[..|inputs| - 1];
      assert Run(g, inputs)[..m] == Run(g, front)[..m];
      n := PrefixIsEarlier(g, front, m);
      assert front[..n] == inputs[..n];
    }
  }
}

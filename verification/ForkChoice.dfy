/**
 The fork-choice store, updated in place.  Valid() says that every field is what module ForkTree
 derives from the log of accepted blocks, so each method that keeps it proves the incremental
 updates equal to recomputing the state from scratch.
 */
module ForkChoice {
  import opened Primitives
  import opened ForkTree
  import opened Journal

  datatype AddError = UnknownParent

  class Store {
    var blocks: map<Hash, Entry>
    var numbers: map<nat, Hash>
    var elHashes: map<Hash, Hash>
    var payloads: map<Hash, seq<byte>>
    var head: Entry
    var safe: Entry
    var finalized: Entry
    var genesis: Hash
    var db: ChainDB?
    const epoch: nat

    /** The accepted blocks, in order of arrival. */
    ghost var log: seq<Record>

    function View(): Tables
      reads this
    {
      Tables(blocks, numbers, elHashes, payloads, head, safe, finalized)
    }

    /** The tables are what the accepted blocks stand for. */
    ghost predicate Sound()
      reads this
    {
      match genesis
      case Raw(_) => false
      case HashOf(g) => StandsFor(g, epoch, log, View())
    }

    /** So are they, and an attached journal holds exactly these blocks. */
    ghost predicate Valid()
      reads this, db
    {
      match genesis
      case Raw(_) => false
      case HashOf(_) => Sound() && (db != null ==> db.Valid() && db.records == log)
    }

    constructor (g: Header, epoch: nat)
      requires g.number == 0
      ensures Valid() && genesis == HashOf(g) && log == [] && this.epoch == epoch && db == null
    {
      var entry := Entry(g, GenesisWeight(g));
      blocks := map[HashOf(g) := entry];
      numbers := map[0 := HashOf(g)];
      elHashes := map[HashOf(g) := HashOf(g)];
      payloads := map[];
      head, safe, finalized := entry, entry, entry;
      genesis := HashOf(g);
      db := null;
      this.epoch := epoch;
      log := [];
      GenesisStandsForEmptyLog(g, epoch);
    }

    /** Back to genesis, in place.  The journal is the caller's business. */
    method Reset(g: Header)
      requires g.number == 0
      modifies this
      ensures Sound() && genesis == HashOf(g) && log == [] && db == old(db)
      ensures Valid() <==> db == null || (db.Valid() && db.records == [])
    {
      var entry := Entry(g, GenesisWeight(g));
      blocks := map[HashOf(g) := entry];
      numbers := map[0 := HashOf(g)];
      elHashes := map[HashOf(g) := HashOf(g)];
      payloads := map[];
      head, safe, finalized := entry, entry, entry;
      genesis := HashOf(g);
      log := [];
      GenesisStandsForEmptyLog(g, epoch);
    }

    method SetDB(db: ChainDB)
      requires Sound()
      modifies this`db
      ensures Sound() && this.db == db
      ensures Valid() <==> db.Valid() && db.records == log
    {
      this.db := db;
    }

    // ----- Lookups

    function HeadHash(): Hash
      reads this
    {
      HashOf(head.header)
    }

    function GetByHash(h: Hash): Option<Header>
      reads this
    {
      if h in blocks then Some(blocks[h].header) else None
    }

    function GetByNumber(n: nat): Option<Header>
      reads this
    {
      if n in numbers && numbers[n] in blocks then Some(blocks[numbers[n]].header) else None
    }

    /** The canonical headers numbered `first` to `last`, both included, with their EL hashes.
        `p` is the canonical chain. */
    method BlocksInRange(first: nat, last: nat, ghost p: seq<Hash>)
      returns (headers: seq<Header>, els: seq<Hash>)
      requires Chain(blocks, p) && IsIndex(numbers, p) && forall h :: h in blocks ==> h in elHashes
      ensures |headers| == |els| == RangeSize(|p|, first, last)
      ensures forall k :: 0 <= k < |headers| ==> Listed(p, first + k, headers[k], els[k])
    {
      headers, els := [], [];
      var num := first;
      while num <= last
        invariant first <= num && (num <= last + 1 || num == first)
        invariant |headers| == |els| == if num == first then 0 else RangeSize(|p|, first, num - 1)
        invariant forall k :: 0 <= k < |headers| ==> Listed(p, first + k, headers[k], els[k])
        decreases last + 1 - num
      {
        if num < |p| {
          OnChain(blocks, p, num);
        }
        if num in numbers && numbers[num] in blocks && numbers[num] in elHashes {
          headers := headers + [blocks[numbers[num]].header];
          els := els + [elHashes[numbers[num]]];
        }
        num := num + 1;
      }
    }

    /** `h` and `el` are the header and EL hash of block `i` of chain `p`. */
    ghost predicate Listed(p: seq<Hash>, i: nat, h: Header, el: Hash)
      reads this
    {
      i < |p| && p[i] == HashOf(h) && p[i] in elHashes && el == elHashes[p[i]]
    }

    // ----- Ancestors and reorganisation, on chains `p` and `q` of stored blocks

    /** The highest block on both chains; None only if a parent were missing. */
    method FindCommonAncestor(x: Entry, y: Entry, ghost p: seq<Hash>, ghost q: seq<Hash>)
      returns (r: Option<Entry>)
      requires Chain(blocks, p) && Chain(blocks, q) && p[0] == q[0]
      requires IsTip(blocks, p, x) && IsTip(blocks, q, y)
      ensures r.Some? && IsOn(blocks, p, r.value) && r.value.header.number == Fork(p, q)
    {
      var a, b := x, y;
      while a.header.number > b.header.number
        invariant IsOn(blocks, p, a) && (a.header.number >= |q| - 1 || a == x)
        decreases a.header.number
      {
        StepDown(blocks, p, a);
        if a.header.parentHash !in blocks {
          return None;
        }
        a := blocks[a.header.parentHash];
      }
      while b.header.number > a.header.number
        invariant IsOn(blocks, q, b) && b.header.number >= a.header.number
        decreases b.header.number
      {
        StepDown(blocks, q, b);
        if b.header.parentHash !in blocks {
          return None;
        }
        b := blocks[b.header.parentHash];
      }
      while HashOf(a.header) != HashOf(b.header)
        invariant IsOn(blocks, p, a) && IsOn(blocks, q, b) && a.header.number == b.header.number
        invariant Fork(p, q) == ForkBelow(p, q, a.header.number + 1)
        decreases a.header.number
      {
        StepDown(blocks, p, a);
        StepDown(blocks, q, b);
        if a.header.parentHash !in blocks || b.header.parentHash !in blocks {
          return None;
        }
        a, b := blocks[a.header.parentHash], blocks[b.header.parentHash];
      }
      return Some(a);
    }

    /** Removes the numbers above the ancestor, walking down from the old head. */
    method Uncanonise(oldHead: Entry, ancestor: Hash, ghost p: seq<Hash>, ghost n: nat)
      requires Chain(blocks, p) && IsTip(blocks, p, oldHead) && IsIndex(numbers, p)
      requires n < |p| && p[n] == ancestor
      modifies this`numbers
      ensures IsIndex(numbers, p[..n + 1])
    {
      OnChain(blocks, p, n);
      assert p[..|p|] == p;
      var cur := oldHead;
      while HashOf(cur.header) != ancestor
        invariant IsOn(blocks, p, cur) && n <= cur.header.number
        invariant IsIndex(numbers, p[..cur.header.number + 1])
        decreases cur.header.number
      {
        StepDown(blocks, p, cur);
        numbers := numbers - {cur.header.number};
        if cur.header.parentHash !in blocks {
          break;
        }
        cur := blocks[cur.header.parentHash];
      }
    }

    /** Enters the blocks above the ancestor, collected walking down from the new head. */
    method Canonise(newHead: Entry, ancestor: Hash, ghost q: seq<Hash>, ghost n: nat)
      requires Chain(blocks, q) && IsTip(blocks, q, newHead)
      requires n < |q| && q[n] == ancestor && IsIndex(numbers, q[..n + 1])
      modifies this`numbers
      ensures IsIndex(numbers, q)
    {
      OnChain(blocks, q, n);
      var cur := newHead;
      var toCanonise: seq<Entry> := [];
      while HashOf(cur.header) != ancestor
        invariant numbers == old(numbers)
        invariant IsOn(blocks, q, cur) && n <= cur.header.number
        invariant |toCanonise| == |q| - 1 - cur.header.number
        invariant forall k :: 0 <= k < |toCanonise| ==>
          toCanonise[k].header.number == |q| - 1 - k && HashOf(toCanonise[k].header) == q[|q| - 1 - k]
        decreases cur.header.number
      {
        StepDown(blocks, q, cur);
        toCanonise := toCanonise + [cur];
        if cur.header.parentHash !in blocks {
          break;
        }
        cur := blocks[cur.header.parentHash];
      }
      for i := 0 to |toCanonise|
        invariant forall k: nat :: k in numbers <==> k <= n || |q| - 1 - i < k < |q|
        invariant forall k: nat :: k in numbers ==> numbers[k] == q[k]
      {
        numbers := numbers[toCanonise[i].header.number := HashOf(toCanonise[i].header)];
      }
    }

    method UpdateSafeFinalized(ghost p: seq<Hash>)
      requires Chain(blocks, p) && p[0] == genesis && IsIndex(numbers, p) && IsTip(blocks, p, head)
      requires epoch == 0 ==> IsOn(blocks, p, safe) && IsOn(blocks, p, finalized)
      requires epoch == 0 ==> safe.header.number == 0 && finalized.header.number == 0
      modifies this`safe, this`finalized
      ensures Follows(View(), epoch, p)
    {
      if epoch == 0 {
        return;
      }
      OnChain(blocks, p, 0);
      var headNum := head.header.number;
      var safeNum := SafeNumber(epoch, headNum);
      OnChain(blocks, p, safeNum);
      safe := blocks[genesis];
      if safeNum in numbers && numbers[safeNum] in blocks {
        safe := blocks[numbers[safeNum]];
      }
      finalized := blocks[genesis];
      if headNum / epoch >= 2 {
        var finalNum := FinalNumber(epoch, headNum);
        OnChain(blocks, p, finalNum);
        if finalNum in numbers && numbers[finalNum] in blocks {
          finalized := blocks[numbers[finalNum]];
        }
      }
    }

    /** Moves the index from chain `p` to chain `q`, whose tip is not a child of `p`'s. */
    method Reorganise(oldHead: Entry, newHead: Entry, ghost p: seq<Hash>, ghost q: seq<Hash>)
      returns (depth: nat)
      requires Chain(blocks, p) && Chain(blocks, q) && p[0] == q[0] && q[|q| - 1] !in p
      requires IsTip(blocks, p, oldHead) && IsTip(blocks, q, newHead) && IsIndex(numbers, p)
      modifies this`numbers
      ensures IsIndex(numbers, q) && depth == |q| - 1 - Fork(p, q)
    {
      var ancestor := FindCommonAncestor(oldHead, newHead, p, q);
      var ancestorHash := if ancestor.Some? then HashOf(ancestor.value.header) else ZERO_HASH;
      var ancestorNum := if ancestor.Some? then ancestor.value.header.number else 0;
      ChainsMeet(blocks, p, q, ancestorNum);
      Uncanonise(oldHead, ancestorHash, p, ancestorNum);
      Canonise(newHead, ancestorHash, q, ancestorNum);
      depth := newHead.header.number - ancestorNum;
    }

    /** Makes `newHead` the head, and returns how far it is above the fork, if there is one. */
    method SetHead(newHead: Entry, ghost p: seq<Hash>, ghost q: seq<Hash>) returns (depth: nat)
      requires Chain(blocks, p) && Chain(blocks, q) && p[0] == q[0] == genesis && q[|q| - 1] !in p
      requires Follows(View(), epoch, p) && IsTip(blocks, q, newHead)
      modifies this`numbers, this`head, this`safe, this`finalized
      ensures head == newHead && Follows(View(), epoch, q) && depth == ReorgDepth(p, q)
    {
      ExtendsByOne(blocks, p, q);
      if newHead.header.parentHash == HashOf(head.header) {
        numbers := numbers[newHead.header.number := HashOf(newHead.header)];
        depth := 0;
      } else {
        depth := Reorganise(head, newHead, p, q);
      }
      head := newHead;
      UpdateSafeFinalized(q);
    }

    // ----- Adding a block

    /** Enters a block in the tables, and leaves the head alone. */
    method Enter(r: Record)
      requires r.header.parentHash in blocks
      modifies this`blocks, this`elHashes, this`payloads
      ensures View() == WithBlock(old(View()), r)
    {
      var hash := HashOf(r.header);
      var td := blocks[r.header.parentHash].td + r.header.difficulty;
      blocks := blocks[hash := Entry(r.header, td)];
      elHashes := elHashes[hash := r.elHash];
      if |r.payload| > 0 {
        payloads := payloads[hash := r.payload];
      }
    }

    /** Appends a block to the journal, if one is attached. */
    method Persist(r: Record)
      requires db != null ==> db.Valid()
      modifies db
      ensures db != null ==> db.Valid() && db.records == old(db.records) + [r]
    {
      if db != null {
        db.Append(r);
      }
    }

    /** Decides on the head after a block has been entered. */
    method Settle(r: Record, ghost g: Header, ghost t: Tables, ghost before: seq<Record>)
      returns (headChanged: bool, depth: nat)
      requires genesis == HashOf(g) && Acceptable(g, epoch, before, t, r) && View() == WithBlock(t, r)
      modifies this`numbers, this`head, this`safe, this`finalized
      ensures StandsFor(g, epoch, before + [r], View())
      ensures HeadMove(g, before, before + [r], headChanged, depth)
    {
      var entry := blocks[HashOf(r.header)];
      if entry.td > head.td {
        ReadyForHead(g, epoch, before, t, r);
        depth := SetHead(entry, Canon(g, before), Canon(g, before + [r]));
        return true, depth;
      }
      AcceptedAside(g, epoch, before, t, r);
      return false, 0;
    }

    /** Takes in a new block whose parent is known. */
    method Accept(r: Record, ghost g: Header, ghost t: Tables) returns (headChanged: bool, depth: nat)
      requires genesis == HashOf(g) && View() == t && Acceptable(g, epoch, log, t, r)
      modifies this`blocks, this`elHashes, this`payloads, this`log
      modifies this`numbers, this`head, this`safe, this`finalized
      ensures StandsFor(g, epoch, log, View()) && log == old(log) + [r]
      ensures HeadMove(g, old(log), log, headChanged, depth)
    {
      Enter(r);
      headChanged, depth := Settle(r, g, t, log);
      log := log + [r];
    }

    method AddNew(r: Record, ghost g: Header, ghost t: Tables) returns (headChanged: bool, depth: nat)
      requires genesis == HashOf(g) && View() == t && Acceptable(g, epoch, log, t, r)
      requires db != null ==> db.Valid() && db.records == log
      modifies this, db
      ensures genesis == HashOf(g) && db == old(db) && log == old(log) + [r]
      ensures StandsFor(g, epoch, log, View())
      ensures db != null ==> db.Valid() && db.records == log
      ensures HeadMove(g, old(log), log, headChanged, depth)
    {
      Persist(r);
      headChanged, depth := Accept(r, g, t);
    }

    /** Stores a block and moves the head when the block's chain is heavier than the head's. */
    method AddBlock(header: Header, elHash: Hash, payload: seq<byte>)
      returns (headChanged: bool, depth: nat, err: Option<AddError>)
      requires Valid() && (header.parentHash in blocks ==> Numbered(header))
      modifies this, db
      ensures Valid() && genesis == old(genesis) && db == old(db)
      ensures log == Submit(genesis.header, old(log), Record(header, elHash, payload))
      ensures err == if HashOf(header) !in old(blocks) && header.parentHash !in old(blocks)
                     then Some(UnknownParent) else None
      ensures HeadMove(genesis.header, old(log), log, headChanged, depth)
    {
      var r := Record(header, elHash, payload);
      SubmitByTables(genesis.header, epoch, log, View(), r);
      if HashOf(header) in blocks {
        return false, 0, None;
      }
      if header.parentHash !in blocks {
        return false, 0, Some(UnknownParent);
      }
      headChanged, depth := AddNew(r, genesis.header, View());
      return headChanged, depth, None;
    }
  }

  /** How many of the numbers `first` to `last` a chain of `length` blocks has. */
  function RangeSize(length: nat, first: nat, last: nat): nat {
    var end := if last < length then last + 1 else length;
    if first < end then end - first else 0
  }
}

/**
 Starting up again after a crash: the journal is repaired, and its records are replayed into a
 fresh store.
 */
module Recovery {
  import opened Primitives
  import opened Clique
  import opened ForkTree
  import opened Journal
  import opened ForkChoice
  import opened SnapshotCache
  import opened Node

  /** Submits the records in order and counts those whose parent is not known. */
  method Resubmit(stor: Store, records: seq<Record>, ghost g: Header) returns (skipped: nat)
    requires stor.Valid() && stor.genesis == HashOf(g) && stor.log == [] && stor.db == null
    requires forall r :: r in records ==> Numbered(r.header)
    modifies stor
    ensures stor.Valid() && stor.genesis == HashOf(g) && stor.db == null
    ensures stor.log == Run(g, records)
    ensures IsLog(g, records) ==> skipped == 0
  {
    skipped := 0;
    for i := 0 to |records|
      invariant stor.Valid() && stor.genesis == HashOf(g) && stor.db == null
      invariant stor.log == Run(g, records[..i])
      invariant IsLog(g, records) ==> skipped == 0
    {
      RunNext(g, stor.epoch, stor.View(), records, i);
      var headChanged, depth, err := stor.AddBlock(records[i].header, records[i].elHash, records[i].payload);
      if err.Some? {
        skipped := skipped + 1;
      }
    }
    assert records[..|records|] == records;
  }

  lemma RunNext(g: Header, epoch: nat, t: Tables, records: seq<Record>, i: nat)
    requires i < |records| && StandsFor(g, epoch, Run(g, records[..i]), t)
    ensures Run(g, records[..i + 1]) == Submit(g, Run(g, records[..i]), records[i])
    ensures IsLog(g, records) ==> records[i].header.parentHash in t.blocks
  {
    assert records[..i + 1][..i] == records[..i];
    if IsLog(g, records) {
      LogPrefix(g, records, i);
      LogPrefix(g, records, i + 1);
      ReplayAcceptsAll(g, records[..i]);
      Facts(g, epoch, records[..i], t);
    }
  }

  lemma {:induction false} LogIsNumbered(g: Header, log: seq<Record>)
    requires IsLog(g, log)
    ensures forall r :: r in log ==> Numbered(r.header)
  {
    if log != [] {
      var n := |log| - 1;
      LogIsNumbered(g, log[..n]);
      assert log == log[..n] + [log[n]];
    }
  }

  /** Rebuilds the store from the file, attaches the journal, and recomputes the head snapshot.  For
      any file the store is the state of the records that could be replayed.  The journal fits it
      exactly if its records are a log of this genesis, as the store writes them. */
  method ReplayChain(n: Node, db: ChainDB, ghost g: Header, ghost records: seq<Record>)
    requires n.Valid() && g == n.genesisHeader && n.stor.log == [] && n.stor.db == null
    requires n.headSnap == n.genesisSnap
    requires db.InFile() && records == RecordsFrom(db.codec, db.data, 0)
    requires forall r :: r in records ==> Numbered(r.header)
    modifies n, n.stor, db
    ensures n.stor.Sound() && n.stor.genesis == HashOf(g) && n.stor.db == db && n.stor.log == Run(g, records)
    ensures n.Cached(Canon(g, n.stor.log))
    ensures db.data == old(db.data) && db.records == old(db.records)
    ensures old(db.Valid()) && db.records == records ==> (n.Valid() <==> IsLog(g, records))
    ensures Verified(n.eng, g, Best(g, n.stor.log)) ==> n.headSnap.hash == Best(g, n.stor.log)
  {
    var all := db.ReadAll();
    var skipped := Resubmit(n.stor, all, g);
    ReplayedIffLog(g, records);
    n.stor.SetDB(db);
    FromGenesis(n.eng, g, n.stor.log, n.headSnap, n.epochSnaps);
    RecoverSnapshot(n, g);
  }

  /** Replay reproduces the records exactly if they are a log. */
  lemma ReplayedIffLog(g: Header, records: seq<Record>)
    requires g.number == 0 && forall r :: r in records ==> Numbered(r.header)
    ensures Run(g, records) == records <==> IsLog(g, records)
  {
    RunIsLog(g, records);
    if IsLog(g, records) {
      ReplayAcceptsAll(g, records);
    }
  }

  method RecoverSnapshot(n: Node, ghost g: Header)
    requires n.stor.Sound() && n.stor.genesis == HashOf(g) && g == n.genesisHeader
    requires n.Cached(Canon(g, n.stor.log)) && n.headSnap == n.genesisSnap
    modifies n
    ensures n.Cached(Canon(g, n.stor.log))
    ensures Verified(n.eng, g, Best(g, n.stor.log)) ==> n.headSnap.hash == Best(g, n.stor.log)
  {
    var head := n.stor.head.header;
    ghost var p := Canon(g, n.stor.log);
    CanonIsStored(g, n.stor.epoch, n.stor.log, n.stor.View());
    CoherentIsNamed(n.eng, g, p, n.headSnap, n.epochSnaps);
    HeadComputes(n.eng, g, p, n.headSnap, n.epochSnaps, head);
    if head.number > 0 {
      var snap := n.ComputeSnapshot(head, p, true);
      if snap.Ok? {
        CoherentWithHead(n.eng, g, p, n.headSnap, n.epochSnaps, snap.value);
        n.headSnap := snap.value;
      }
    }
  }

  lemma FromGenesis(e: Engine, g: Header, log: seq<Record>, headSnap: Snapshot, epochSnaps: map<nat, Snapshot>)
    requires IsLog(g, log) && Coherent(e, g, Canon(g, []), headSnap, epochSnaps)
    ensures Coherent(e, g, Canon(g, log), headSnap, epochSnaps)
  {
    PathFollows(g, Best(g, log));
    assert Canon(g, []) == [HashOf(g)];
    CoherentExtends(e, g, Canon(g, []), Canon(g, log), headSnap, epochSnaps);
  }

  /** A restart after a crash at any point.  `inputs` are the blocks submitted to the store before
      the crash, which left the first `k` bytes of its journal.  The new node's store is exactly as
      the old one was after some earlier submission, with every block whose record was complete. */
  method Restart(eng: Engine, g: Header, codec: Codec, file: seq<byte>, ghost inputs: seq<Record>, ghost k: nat)
    returns (n: Node, ghost j: nat)
    requires g.number == 0 && CheckpointSnapshot(g).Ok?
    requires (forall r :: r in inputs ==> Numbered(r.header)) && IsCut(codec, Run(g, inputs), k, file)
    ensures n.Valid() && n.eng == eng && n.genesisHeader == g && n.stor.db != null && n.stor.epoch == eng.epoch
    ensures j <= |inputs| && n.stor.log == Run(g, inputs[..j])
    ensures |n.stor.log| == Complete(codec, Run(g, inputs), k)
    ensures forall t :: StandsFor(g, eng.epoch, Run(g, inputs[..j]), t) ==> n.stor.View() == t
    ensures Verified(eng, g, Best(g, n.stor.log)) ==> n.headSnap.hash == Best(g, n.stor.log)
  {
    ghost var log := Run(g, inputs);
    ghost var m := Complete(codec, log, k);
    RunIsLog(g, inputs);
    LogPrefix(g, log, m);
    LogIsNumbered(g, log[..m]);
    j := PrefixIsEarlier(g, inputs, m);
    n := new Node(eng, g);
    var db := new ChainDB.Open(codec, file, log, k);
    ReplayAcceptsAll(g, log[..m]);
    ReplayChain(n, db, g, log[..m]);
    forall t | StandsFor(g, eng.epoch, log[..m], t)
      ensures n.stor.View() == t
    {
      StateIsDetermined(g, eng.epoch, log[..m], n.stor.View(), t);
    }
  }
}

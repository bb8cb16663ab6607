/** The core of one view, updated in place by each message and by the round timer. */
module QbftCore {
  import opened Primitives
  import opened ByteOrder
  import opened Qbft

  class Core {
    const p: Params
    var phase: Phase
    var proposalHeader: Option<Header>
    var proposalPayload: seq<byte>
    var proposalHash: Hash
    var prepares: map<Address, Hash>
    var commits: map<Address, seq<byte>>
    var roundChanges: map<Address, Noted>
    var backlog: map<nat, seq<Incoming>>

    function Now(): State
      reads this
    {
      State(phase, proposalHeader, proposalPayload, proposalHash, prepares, commits, roundChanges, backlog)
    }

    predicate Valid()
      reads this
    {
      HasProposal(Now())
    }

    constructor (sequence: nat, round: nat, validators: seq<Address>, quorum: nat, cfg: Config)
      ensures Valid() && Now() == INITIAL
      ensures p == Params(sequence, round, quorum, (set a | a in validators), cfg)
    {
      p := Params(sequence, round, quorum, (set a | a in validators), cfg);
      phase, proposalHeader, proposalPayload, proposalHash := New, None, [], ZERO_HASH;
      prepares, commits, roundChanges, backlog := map[], map[], map[], map[];
    }

    method StartProposer(header: Header, payload: seq<byte>, rcc: seq<Signed>) returns (ds: seq<Decision>)
      modifies this
      ensures Valid() && Outcome(Now(), ds) == Qbft.StartProposer(p, old(Now()), header, payload, rcc)
    {
      proposalHeader, proposalPayload, proposalHash := Some(header), payload, HashOf(header);
      phase := Prepared;
      ds := [Broadcast(Proposal(p.Here(), Some(header), payload, rcc))];
      ds := ds + [Broadcast(Prepare(p.Here(), proposalHash))];
    }

    /** Accepts exactly the certificates that a quorum of distinct validators signed for this view. */
    method VerifyRCC(rcc: seq<Signed>) returns (ok: bool)
      ensures ok <==> IsCertificate(p, rcc)
    {
      NotMoreThanEntries(p, p.Here(), rcc);
      if |rcc| < p.quorum {
        return false;
      }
      var seen: set<Address> := {};
      var valid := 0;
      for i := 0 to |rcc|
        invariant seen == Changers(p, p.Here(), rcc[..i]) && valid == |seen|
      {
        ChangersNext(p, p.Here(), rcc, i);
        var signer := p.cfg.roundChangeSigVerifier(rcc[i].data, rcc[i].sig);
        if signer == None || signer.value !in p.validators || signer.value in seen {
          continue;
        }
        if rcc[i].data == None || rcc[i].data.value.view != p.Here() {
          continue;
        }
        seen := seen + {signer.value};
        valid := valid + 1;
      }
      assert rcc[..|rcc|] == rcc;
      return valid >= p.quorum;
    }

    method HandleProposal(m: Incoming) returns (ds: seq<Decision>)
      requires Valid() && m.body.Proposal?
      modifies this
      ensures Valid() && Outcome(Now(), ds) == Qbft.HandleProposal(p, old(Now()), m)
    {
      ds := [];
      if phase != New {
        return;
      }
      var b := m.body;
      if b.view.sequence != p.sequence || b.view.round != p.round {
        if b.view.round > p.round && |backlog| < BACKLOG_ROUNDS {
          var waiting := if b.view.round in backlog then backlog[b.view.round] else [];
          backlog := backlog[b.view.round := waiting + [m]];
        }
        return;
      }
      if p.round > 0 {
        var ok := VerifyRCC(b.rcc);
        if !ok {
          return;
        }
      }
      if b.header == None || !p.cfg.proposalVerifier(b.header.value) {
        return;
      }
      proposalHeader, proposalPayload, proposalHash := b.header, b.payload, HashOf(b.header.value);
      phase := Prepared;
      ds := [Broadcast(Prepare(p.Here(), proposalHash))];
    }

    method HandlePrepare(m: Incoming) returns (ds: seq<Decision>)
      requires Valid() && m.body.Prepare?
      modifies this
      ensures Valid() && Outcome(Now(), ds) == Qbft.HandlePrepare(p, old(Now()), m)
    {
      ds := [];
      if phase == New || phase == Committed {
        return;
      }
      if m.body.view.sequence != p.sequence || m.body.view.round != p.round || m.body.hash != proposalHash {
        return;
      }
      prepares := prepares[m.from := m.body.hash];
      if phase == Prepared && |prepares| >= p.quorum {
        phase := CommitSent;
        var seal := p.cfg.commitSealSigner(proposalHeader.value);
        if seal.Some? {
          ds := [Broadcast(Commit(p.Here(), proposalHash, seal.value))];
        }
      }
    }

    method SortSeals() returns (seals: seq<seq<byte>>)
      ensures seals == SealList(commits)
    {
      var order := Ascending(commits.Keys);
      seals := [];
      for i := 0 to |order|
        invariant seals == SealList(commits)[..i]
      {
        SealListNext(commits, i);
        seals := seals + [commits[order[i]]];
      }
    }

    method HandleCommit(m: Incoming) returns (ds: seq<Decision>)
      requires Valid() && m.body.Commit? && m.from in p.validators && !Panics(p, Now(), m)
      modifies this
      ensures Valid() && Outcome(Now(), ds) == Qbft.HandleCommit(p, old(Now()), m)
    {
      ds := [];
      if phase == New || phase == Committed {
        return;
      }
      if m.body.view.sequence != p.sequence || m.body.view.round != p.round || m.body.hash != proposalHash {
        return;
      }
      if |m.body.seal| > 0 {
        var signer := p.cfg.commitSealVerifier(proposalHeader.value, m.body.seal);
        if signer == None || signer.value != m.from {
          return;
        }
      }
      commits := commits[m.from := m.body.seal];
      if |commits| >= p.quorum {
        var seals := SortSeals();
        var final := p.cfg.commitBlock(proposalHeader.value, seals);
        if final == None {
          return;
        }
        phase := Committed;
        ds := [CommitBlock(final.value, proposalPayload)];
      }
    }

    method Timeout() returns (ds: seq<Decision>)
      requires Valid()
      modifies this
      ensures Valid() && Outcome(Now(), ds) == Qbft.Timeout(p, old(Now()))
    {
      if phase == Committed {
        return [];
      }
      var preparedRound: nat, block, payload := 0, NoBlock, [];
      if phase == Prepared || phase == CommitSent {
        preparedRound := p.round;
        if proposalHeader.Some? {
          block := Encoded(proposalHeader.value);
        }
        payload := proposalPayload;
      }
      var rc := RoundChange(View(p.sequence, p.round + 1), preparedRound, block, payload);
      phase := RoundChanging;
      return [Broadcast(Change(rc))];
    }

    /** The noted round changes to `target`, in an arbitrary order. */
    method Collect(target: nat) returns (records: seq<Noted>, ghost order: seq<Address>)
      ensures Enumerates(order, Aiming(roundChanges, target)) && AreRecords(roundChanges, order, records)
    {
      records, order := [], [];
      var todo := roundChanges.Keys;
      while todo != {}
        invariant todo <= roundChanges.Keys
        invariant Enumerates(order, Aiming(roundChanges, target) - todo) && AreRecords(roundChanges, order, records)
        decreases todo
      {
        var a :| a in todo;
        EnumeratesNext(roundChanges, target, todo, order, a);
        RecordsNext(roundChanges, order, records, a);
        if roundChanges[a].rc.view.round == target {
          records, order := records + [roundChanges[a]], order + [a];
        }
        todo := todo - {a};
      }
      assert Aiming(roundChanges, target) - todo == Aiming(roundChanges, target);
    }

    /** The last record with a block among those of the highest prepared round. */
    method Highest(records: seq<Noted>) returns (r: Option<Noted>)
      ensures r == None <==> forall n :: n in records ==> n.rc.block == NoBlock
      ensures r.Some? ==> r.value in records && r.value.rc.block != NoBlock
      ensures r.Some? ==>
        forall n :: n in records && n.rc.block != NoBlock ==> n.rc.preparedRound <= r.value.rc.preparedRound
    {
      r := None;
      for i := 0 to |records|
        invariant r == None <==> forall n :: n in records[..i] ==> n.rc.block == NoBlock
        invariant r.Some? ==> r.value in records[..i] && r.value.rc.block != NoBlock
        invariant r.Some? ==>
          forall n :: n in records[..i] && n.rc.block != NoBlock ==> n.rc.preparedRound <= r.value.rc.preparedRound
      {
        var highest := if r.Some? then r.value.rc.preparedRound else 0;
        if records[i].rc.block != NoBlock && records[i].rc.preparedRound >= highest {
          r := Some(records[i]);
        }
        assert records[..i + 1] == records[..i] + [records[i]];
      }
      assert records[..|records|] == records;
    }

    /** Inserts a record into a sorted list, before the first with greater bytes. */
    method Insert(sorted: seq<Noted>, x: Noted, ghost order: seq<Address>, ghost a: Address)
      returns (more: seq<Noted>, ghost order': seq<Address>)
      requires IsSorted(KeysOf(p.cfg.encode, sorted)) && AreRecords(roundChanges, order, sorted)
      requires a !in order && AllDiffer(order) && a in roundChanges && x == roundChanges[a]
      ensures IsSorted(KeysOf(p.cfg.encode, more)) && AreRecords(roundChanges, order', more) && AllDiffer(order')
      ensures multiset(order') == multiset(order) + multiset{a}
    {
      var i := 0;
      while i < |sorted| && !Less(p.cfg.encode(x.rc), p.cfg.encode(sorted[i].rc))
        invariant i <= |sorted| && forall k :: 0 <= k < i ==> !Less(p.cfg.encode(x.rc), KeysOf(p.cfg.encode, sorted)[k])
      {
        i := i + 1;
      }
      more, order' := sorted[..i] + [x] + sorted[i..], order[..i] + [a] + order[i..];
      InsertKeepsSorted(KeysOf(p.cfg.encode, sorted), i, p.cfg.encode(x.rc));
      InsertedKeys(p.cfg.encode, sorted, i, x);
      InsertedRecords(roundChanges, order, sorted, i, a);
    }

    /** Sorts the records by their bytes. */
    method SortRecords(records: seq<Noted>, ghost order: seq<Address>)
      returns (sorted: seq<Noted>, ghost order': seq<Address>)
      requires AreRecords(roundChanges, order, records) && AllDiffer(order)
      ensures IsSorted(KeysOf(p.cfg.encode, sorted)) && AreRecords(roundChanges, order', sorted) && AllDiffer(order')
      ensures multiset(order') == multiset(order)
    {
      sorted, order' := [], [];
      for i := 0 to |records|
        invariant IsSorted(KeysOf(p.cfg.encode, sorted))
        invariant AreRecords(roundChanges, order', sorted) && AllDiffer(order')
        invariant multiset(order') == multiset(order[..i])
      {
        NotYetListed(order, i, order');
        assert order[..i + 1] == order[..i] + [order[i]];
        sorted, order' := Insert(sorted, records[i], order', order[i]);
      }
      assert order[..|order|] == order;
    }

    method HandleRoundChange(m: Incoming) returns (ds: seq<Decision>)
      requires Valid() && m.body.Change?
      modifies this
      ensures Valid() && HandlesChange(p, old(Now()), m, Outcome(Now(), ds))
    {
      ds := [];
      var rc := m.body.rc;
      if rc.view.sequence != p.sequence || rc.view.round <= p.round {
        return;
      }
      roundChanges := roundChanges[m.from := Noted(rc, m.sig)];
      var records, order := Collect(rc.view.round);
      if |records| < p.quorum {
        return;
      }
      var best := Highest(records);
      var sorted, order' := SortRecords(records, order);
      SameElements(order, order', Aiming(roundChanges, rc.view.round));
      var rcc := seq(|sorted|, i requires 0 <= i < |sorted| => Signed(Some(sorted[i].rc), sorted[i].sig));
      assert Keys(p.cfg.encode, rcc) == KeysOf(p.cfg.encode, sorted);
      var d := StartRound(rc.view.round, None, [], rcc);
      if best.Some? {
        var block := best.value.rc.block;
        d := StartRound(
          rc.view.round, if block.Encoded? then Some(block.header) else None, best.value.rc.payload, rcc);
      }
      BestStarts(roundChanges, rc.view.round, records, order, order', best, d);
      ds := [d];
    }

    method HandleMsg(m: Incoming) returns (ds: seq<Decision>)
      requires Valid() && !Panics(p, Now(), m)
      modifies this
      ensures Valid() && Handles(p, old(Now()), m, Outcome(Now(), ds))
    {
      if m.from !in p.validators {
        return [];
      }
      match m.body
      case Proposal(_, _, _, _) => ds := HandleProposal(m);
      case Prepare(_, _) => ds := HandlePrepare(m);
      case Commit(_, _, _) => ds := HandleCommit(m);
      case Change(_) => ds := HandleRoundChange(m);
      case Malformed => ds := [];
    }

    /** Hands over, and forgets, the messages buffered for `round`. */
    method BacklogForRound(round: nat) returns (ms: seq<Incoming>)
      modifies this`backlog
      ensures ms == if round in old(backlog) then old(backlog)[round] else []
      ensures backlog == old(backlog) - {round}
    {
      ms := if round in backlog then backlog[round] else [];
      backlog := backlog - {round};
    }
  }

  lemma ChangersNext(p: Params, view: View, rcc: seq<Signed>, i: nat)
    requires i < |rcc|
    ensures Changers(p, view, rcc[..i + 1]) ==
      Changers(p, view, rcc[..i]) +
      if IsChangeTo(p, view, rcc[i]) then {p.cfg.roundChangeSigVerifier(rcc[i].data, rcc[i].sig).value} else {}
  {
    var longer, shorter := rcc[..i + 1], rcc[..i];
    assert forall k :: 0 <= k < i ==> longer[k] == shorter[k];
    assert longer[i] == rcc[i];
  }

  lemma {:induction false} NotMoreThanEntries(p: Params, view: View, rcc: seq<Signed>)
    ensures |Changers(p, view, rcc)| <= |rcc|
  {
    if rcc != [] {
      var n := |rcc| - 1;
      NotMoreThanEntries(p, view, rcc[..n]);
      ChangersNext(p, view, rcc, n);
      assert rcc[..n + 1] == rcc;
    }
  }

  function KeysOf(encode: RoundChange -> seq<byte>, records: seq<Noted>): seq<seq<byte>> {
    seq(|records|, i requires 0 <= i < |records| => encode(records[i].rc))
  }

  lemma InsertedKeys(encode: RoundChange -> seq<byte>, records: seq<Noted>, i: nat, x: Noted)
    requires i <= |records|
    ensures KeysOf(encode, records[..i] + [x] + records[i..]) ==
      KeysOf(encode, records)[..i] + [encode(x.rc)] + KeysOf(encode, records)[i..]
  {
  }

  lemma InsertedRecords(changes: map<Address, Noted>, order: seq<Address>, records: seq<Noted>, i: nat, a: Address)
    requires AreRecords(changes, order, records) && i <= |records|
    requires a in changes && a !in order && AllDiffer(order)
    ensures AreRecords(changes, order[..i] + [a] + order[i..], records[..i] + [changes[a]] + records[i..])
    ensures AllDiffer(order[..i] + [a] + order[i..])
    ensures multiset(order[..i] + [a] + order[i..]) == multiset(order) + multiset{a}
  {
    assert order == order[..i] + order[i..];
  }

  lemma SealListNext(commits: map<Address, seq<byte>>, i: nat)
    requires i < |Ascending(commits.Keys)|
    ensures i < |SealList(commits)| && Ascending(commits.Keys)[i] in commits
    ensures SealList(commits)[..i + 1] == SealList(commits)[..i] + [commits[Ascending(commits.Keys)[i]]]
  {
    var order, seals := Ascending(commits.Keys), SealList(commits);
    assert order[i] in order;
    TakeNext(seals, i);
  }

  ghost predicate AllDiffer(order: seq<Address>) {
    forall i, j :: 0 <= i < j < |order| ==> order[i] != order[j]
  }

  lemma NotYetListed(order: seq<Address>, i: nat, part: seq<Address>)
    requires AllDiffer(order) && i < |order| && multiset(part) == multiset(order[..i])
    ensures order[i] !in part
  {
    assert order[i] in part <==> order[i] in multiset(part);
    assert order[i] !in order[..i];
  }

  lemma SameElements(order: seq<Address>, order': seq<Address>, s: set<Address>)
    requires Enumerates(order, s) && multiset(order') == multiset(order) && AllDiffer(order')
    ensures Enumerates(order', s)
  {
    assert |order'| == |multiset(order')| == |multiset(order)| == |order|;
    forall a
      ensures a in order' <==> a in s
    {
      assert a in order' <==> a in multiset(order');
      assert a in order <==> a in multiset(order);
    }
  }

  ghost predicate AreRecords(changes: map<Address, Noted>, order: seq<Address>, records: seq<Noted>) {
    && |records| == |order|
    && forall i :: 0 <= i < |order| ==> order[i] in changes && records[i] == changes[order[i]]
  }

  lemma RecordsNext(changes: map<Address, Noted>, order: seq<Address>, records: seq<Noted>, a: Address)
    requires AreRecords(changes, order, records) && a in changes
    ensures AreRecords(changes, order + [a], records + [changes[a]])
  {
  }

  lemma EnumeratesNext(changes: map<Address, Noted>, target: nat, todo: set<Address>, order: seq<Address>, a: Address)
    requires a in todo && a in changes && Enumerates(order, Aiming(changes, target) - todo)
    ensures Enumerates(
      if a in Aiming(changes, target) then order + [a] else order, Aiming(changes, target) - (todo - {a}))
  {
    var before, after := Aiming(changes, target) - todo, Aiming(changes, target) - (todo - {a});
    if a in Aiming(changes, target) {
      assert after == before + {a};
    } else {
      assert after == before;
    }
  }

  /** A decision made from the collected records is one the round changes call for. */
  lemma BestStarts(changes: map<Address, Noted>, round: nat, records: seq<Noted>, order: seq<Address>,
                   order': seq<Address>, best: Option<Noted>, d: Decision)
    requires Enumerates(order, Aiming(changes, round)) && AreRecords(changes, order, records)
    requires d.StartRound? && d.round == round && Certifies(changes, round, d.rcc, order')
    requires best == None <==> forall n :: n in records ==> n.rc.block == NoBlock
    requires best.Some? ==> best.value in records && best.value.rc.block != NoBlock && Carries(best.value.rc, d)
    requires best.Some? ==>
      forall n :: n in records && n.rc.block != NoBlock ==> n.rc.preparedRound <= best.value.rc.preparedRound
    requires best == None ==> d.prepared == None && d.preparedPayload == []
    ensures Starts(changes, round, d)
  {
    forall a | a in Aiming(changes, round)
      ensures changes[a] in records
    {
      assert a in order;
      var i :| 0 <= i < |order| && order[i] == a;
      assert records[i] == changes[a];
    }
    if best.Some? {
      var i :| 0 <= i < |records| && records[i] == best.value;
      assert order[i] in order;
      assert IsHighest(changes, round, order[i]);
    } else {
      assert forall a :: a in Aiming(changes, round) ==> changes[a].rc.block == NoBlock;
    }
  }
}

/** The header a validator commits is one that every follower accepts. */
module QbftFinality {
  import opened Primitives
  import opened Qbft
  import opened QbftNetwork
  import opened QbftHeader
  import opened QbftProgress

  /** The callbacks the node gives a core, for one parent and one validator set. */
  ghost predicate IsConfig(cfg: Config, e: Engine, validators: set<Address>, parent: Option<Header>) {
    && (forall h :: cfg.proposalVerifier(h) <==> VerifyProposal(e, validators, h, parent) == None)
    && (forall h, seal :: cfg.commitSealVerifier(h, seal) == RecoverCommitSealSigner(e, h, seal))
    && (forall h, seals :: cfg.commitBlock(h, seals) == CommitHeader(e, h, seals))
  }

  // ----- Counted seals were checked

  ghost predicate Checked(p: Params, s: State) {
    forall x :: x in s.commits ==>
      x in p.validators && (s.proposal.Some? ==> SealIsBy(p.cfg, s.proposal.value, s.commits[x], x))
  }

  lemma MessageIsChecked(p: Params, n: Member, m: Incoming, o: Outcome)
    requires Fit(p, n) && Checked(p, n.core) && !Panics(p, n.core, m) && Handles(p, n.core, m, o)
    ensures Checked(p, o.state)
  {
  }

  lemma ActIsChecked(w: World, n: Member, sent: seq<Sent>, act: Act)
    requires Fit(w.Params(act.a), n) && Checked(w.Params(act.a), n.core) && Allowed(w, n, sent, act)
    ensures Checked(w.Params(act.a), act.o.state)
  {
    if act.e.Replay? || act.e.Deliver? {
      MessageIsChecked(w.Params(act.a), n, act.e.m, act.o);
    }
  }

  lemma {:induction false} RunIsChecked(w: World, acts: seq<Act>, a: Address)
    requires Legal(w, acts) && a in Play(w, acts).members
    ensures Checked(w.Params(a), Play(w, acts).members[a].core)
  {
    if acts != [] {
      var n := |acts| - 1;
      LegalFront(w, acts, n);
      var net := Play(w, acts[..n]);
      RunKeepsInv(w, acts[..n]);
      RunIsChecked(w, acts[..n], a);
      assert Holds(w, a, net.members[a], net.sent);
      if a == acts[n].a {
        ActIsChecked(w, net.members[a], net.sent, acts[n]);
      }
    }
  }

  // ----- The committed header

  /** The seal list depends on the collected commits alone: any ascending listing of the senders
      gives the same seals in the same order. */
  lemma SealOrderIsUnique(commits: map<Address, seq<byte>>, order: seq<Address>, i: nat)
    requires IsAscending(order) && (forall a: Address :: a in order <==> a in commits) && i < |order|
    ensures |SealList(commits)| == |order| && order[i] in commits && SealList(commits)[i] == commits[order[i]]
  {
    AscendingIsUnique(order, Ascending(commits.Keys));
    assert order[i] in order;
  }

  lemma SealsAreBySenders(e: Engine, validators: set<Address>, h: Header, commits: map<Address, seq<byte>>)
    requires forall x :: x in commits ==> x in validators && RecoverCommitSealSigner(e, h, commits[x]) == Some(x)
    ensures AreSealed(e, validators, h, SealList(commits)) && |SealList(commits)| == |commits|
  {
    var order := Ascending(commits.Keys);
    assert |commits| == |commits.Keys|;
    forall i | 0 <= i < |order|
      ensures RecoverCommitSealSigner(e, h, SealList(commits)[i]) == Some(order[i]) && order[i] in validators
    {
      assert order[i] in order;
    }
  }

  /** A good proposal with the seals of a quorum injected is a committed header. */
  lemma SealedProposalIsCommitted(
      e: Engine, validators: set<Address>, h: Header, parent: Option<Header>, commits: map<Address, seq<byte>>)
    requires e.Lawful() && VerifyProposal(e, validators, h, parent) == None
    requires forall x :: x in commits ==> x in validators && RecoverCommitSealSigner(e, h, commits[x]) == Some(x)
    requires |commits| >= Quorum(|validators|)
    ensures IsCommitted(e, validators, CommitHeader(e, h, SealList(commits)).value, parent)
  {
    var seals := SealList(commits);
    var final := CommitHeader(e, h, seals).value;
    SealsLeaveHashes(e, h, seals);
    SealsAreBySenders(e, validators, h, commits);
    StillProposal(e, validators, h, final, parent);
    StillSealed(e, validators, h, final, seals);
  }

  lemma StillProposal(e: Engine, validators: set<Address>, h: Header, final: Header, parent: Option<Header>)
    requires VerifyProposal(e, validators, h, parent) == None && final == h.(extra := final.extra)
    requires DecodeExtra(e, final).Some? && SignerFromHeader(e, final) == SignerFromHeader(e, h)
    ensures VerifyProposal(e, validators, final, parent) == None
  {
  }

  lemma StillSealed(e: Engine, validators: set<Address>, h: Header, final: Header, seals: seq<seq<byte>>)
    requires AreSealed(e, validators, h, seals) && CommitSealHash(e, final) == CommitSealHash(e, h)
    ensures AreSealed(e, validators, final, seals)
  {
    assert forall seal :: RecoverCommitSealSigner(e, final, seal) == RecoverCommitSealSigner(e, h, seal);
    assert forall seal :: IsSealed(e, validators, final, seal) == IsSealed(e, validators, h, seal);
  }

  /** What is known of a core that emits CommitBlock. */
  lemma EmitterFacts(w: World, acts: seq<Act>, i: nat)
    requires Legal(w, acts) && Commits(acts, i)
    ensures
      var a, o, net := acts[i].a, acts[i].o, Play(w, acts[..i + 1]);
      && a in net.members && net.members[a].core == o.state && Fit(w.Params(a), net.members[a])
      && o.state.phase == Committed && Checked(w.Params(a), o.state) && Finalises(w.cfg(a), o)
  {
    SentGrows(w, acts, i + 1);
    CommitIsFinal(w, acts, i);
    RunKeepsInv(w, acts[..i + 1]);
    RunIsChecked(w, acts[..i + 1], acts[i].a);
    var net := Play(w, acts[..i + 1]);
    assert Holds(w, acts[i].a, net.members[acts[i].a], net.sent);
  }

  /** Every counted COMMIT carried a seal. */
  predicate AllSealed(s: State) {
    forall x :: x in s.commits ==> |s.commits[x]| > 0
  }

  /** An empty seal among those injected is by nobody. */
  lemma UnsealedIsNotCommitted(
      e: Engine, validators: set<Address>, h: Header, parent: Option<Header>,
      commits: map<Address, seq<byte>>, x: Address)
    requires e.Lawful() && DecodeExtra(e, h).Some? && x in commits && commits[x] == []
    ensures !IsCommitted(e, validators, CommitHeader(e, h, SealList(commits)).value, parent)
  {
    var order, seals := Ascending(commits.Keys), SealList(commits);
    SealsLeaveHashes(e, h, seals);
    assert x in order;
    var i :| 0 <= i < |order| && order[i] == x;
    assert seals[i] == [];
    assert !IsSealed(e, validators, CommitHeader(e, h, seals).value, seals[i]);
  }

  lemma FinalHeaderIsCommittedIff(p: Params, n: Member, o: Outcome, e: Engine, parent: Option<Header>)
    requires n.core == o.state && Fit(p, n) && o.state.phase == Committed && Checked(p, o.state) && Finalises(p.cfg, o)
    requires e.Lawful() && IsConfig(p.cfg, e, p.validators, parent) && p.quorum == Quorum(|p.validators|)
    requires n.proposed ==> VerifyProposal(e, p.validators, o.state.proposal.value, parent) == None
    ensures IsCommitted(e, p.validators, o.decisions[0].header, parent) <==> AllSealed(o.state)
  {
    var h, commits := o.state.proposal.value, o.state.commits;
    if AllSealed(o.state) {
      SealedProposalIsCommitted(e, p.validators, h, parent, commits);
    } else {
      var x :| x in commits && |commits[x]| == 0;
      UnsealedIsNotCommitted(e, p.validators, h, parent, commits, x);
    }
  }

  /** Whatever the run, when an honest core emits CommitBlock, followers with the same validators and
      parent accept the header exactly if every counted COMMIT carried a seal.  The proposal has
      passed verification, or is the validator's own and would pass it. */
  lemma CommitIsAcceptedIff(w: World, acts: seq<Act>, i: nat, e: Engine, parent: Option<Header>)
    requires Legal(w, acts) && Commits(acts, i)
    requires e.Lawful() && IsConfig(w.cfg(acts[i].a), e, w.validators, parent)
    requires acts[i].a in Play(w, acts[..i + 1]).members && Play(w, acts[..i + 1]).members[acts[i].a].proposed ==>
      acts[i].o.state.proposal.Some? && VerifyProposal(e, w.validators, acts[i].o.state.proposal.value, parent) == None
    ensures |acts[i].o.decisions| == 1 && acts[i].o.decisions[0].CommitBlock?
    ensures IsCommitted(e, w.validators, acts[i].o.decisions[0].header, parent) <==> AllSealed(acts[i].o.state)
  {
    EmitterFacts(w, acts, i);
    var a := acts[i].a;
    FinalHeaderIsCommittedIff(w.Params(a), Play(w, acts[..i + 1]).members[a], acts[i].o, e, parent);
  }

  // ----- Runs that commit on an empty seal

  /** One more COMMIT from `from` completes a quorum at the core. */
  predicate NeedsOneMore(p: Params, s: State, from: Address) {
    && s.phase != New && s.phase != Committed && s.proposal.Some?
    && from in p.validators && from !in s.commits && |s.commits| + 1 >= p.quorum
  }

  /** In any run, a faulty validator whose COMMIT would complete a quorum at an honest core can send
      it without a seal.  The core then commits a header that followers refuse. */
  lemma EmptySealCommits(w: World, acts: seq<Act>, a: Address, from: Address, e: Engine, parent: Option<Header>)
    returns (more: seq<Act>)
    requires Legal(w, acts) && a in Play(w, acts).members && from in w.byz
    requires NeedsOneMore(w.Params(a), Play(w, acts).members[a].core, from)
    requires e.Lawful() && IsConfig(w.cfg(a), e, w.validators, parent)
    requires VerifyProposal(e, w.validators, Play(w, acts).members[a].core.proposal.value, parent) == None
    ensures Legal(w, more) && |more| == |acts| + 1 && acts <= more && Commits(more, |acts|) && more[|acts|].a == a
    ensures |more[|acts|].o.decisions| == 1 && more[|acts|].o.decisions[0].CommitBlock?
    ensures !IsCommitted(e, w.validators, more[|acts|].o.decisions[0].header, parent)
  {
    var net := Play(w, acts);
    var s := net.members[a].core;
    RunKeepsInv(w, acts);
    assert Holds(w, a, net.members[a], net.sent);
    var act := EmptySealCanCome(w, net, a, from);
    EmptySealOutcome(w.Params(a), s, act.e.m, e, parent);
    LegalNext(w, acts, act);
    more := acts + [act];
    assert act.o.decisions[0] in more[|acts|].o.decisions;
    UnsealedIsNotCommitted(e, w.validators, s.proposal.value, parent, act.o.state.commits, from);
  }

  lemma EmptySealCanCome(w: World, net: Net, a: Address, from: Address) returns (act: Act)
    requires a in net.members && HasProposal(net.members[a].core) && from in w.byz
    requires NeedsOneMore(w.Params(a), net.members[a].core, from)
    ensures
      var s, m := net.members[a].core, Incoming(from, Commit(w.Here(), net.members[a].core.hash, []), []);
      act == Act(a, Deliver(m), HandleCommit(w.Params(a), s, m)) && CanAct(w, net, act)
  {
    var s := net.members[a].core;
    var m := Incoming(from, Commit(w.Here(), s.hash, []), []);
    act := Act(a, Deliver(m), HandleCommit(w.Params(a), s, m));
  }

  lemma EmptySealOutcome(p: Params, s: State, m: Incoming, e: Engine, parent: Option<Header>)
    requires NeedsOneMore(p, s, m.from) && m.body == Commit(p.Here(), s.hash, [])
    requires IsConfig(p.cfg, e, p.validators, parent) && DecodeExtra(e, s.proposal.value).Some?
    ensures
      var o := HandleCommit(p, s, m);
      && m.from in o.state.commits && o.state.commits[m.from] == []
      && o.decisions ==
           [CommitBlock(CommitHeader(e, s.proposal.value, SealList(o.state.commits)).value, s.payload)]
  {
    OneMoreKey(s.commits, m.from, []);
    var commits := s.commits[m.from := []];
    assert p.cfg.commitBlock(s.proposal.value, SealList(commits)) ==
      CommitHeader(e, s.proposal.value, SealList(commits));
  }

  lemma OneMoreKey<V>(m: map<Address, V>, a: Address, v: V)
    requires a !in m
    ensures |m[a := v]| == |m| + 1
  {
    assert m[a := v].Keys == m.Keys + {a};
  }

  /** A proposal for block 1 sealed by `a`. */
  function SampleProposal(e: Engine, a: Address): Option<Header> {
    var extra := EncodeExtra(e, [], Istanbul([], [], 0, [], []));
    SealHeader(e, Header(ZERO_HASH, EMPTY_UNCLE_HASH, ZERO_ADDRESS, 1, 1, 0, extra, ZERO_HASH, 0, 0), a)
  }

  lemma SampleProposalIsGood(e: Engine, a: Address, validators: set<Address>)
    requires e.Lawful() && a in validators
    ensures SampleProposal(e, a).Some?
    ensures VerifyProposal(e, validators, SampleProposal(e, a).value, None) == None
  {
    var x := Istanbul([], [], 0, [], []);
    var extra := EncodeExtra(e, [], x);
    var base := Header(ZERO_HASH, EMPTY_UNCLE_HASH, ZERO_ADDRESS, 1, 1, 0, extra, ZERO_HASH, 0, 0);
    assert extra[EXTRA_VANITY..] == e.encode(x);
    SealRoundTrip(e, base, a);
    ExtraRoundTrip(e, base, x.(seal := e.sign(ProposalSigHash(e, base).value, a)), x);
  }

  /** The callbacks of validator `a`. */
  function NodeConfig(e: Engine, a: Address, validators: set<Address>, parent: Option<Header>): Config {
    Config(
      h => VerifyProposal(e, validators, h, parent) == None,
      h => CreateCommitSeal(e, h, a),
      (h, seal) => RecoverCommitSealSigner(e, h, seal),
      (h, seals) => CommitHeader(e, h, seals),
      (data, sig) => None,
      rc => [])
  }

  /** Two validators, of whom `b` is faulty. */
  function Pair(e: Engine, a: Address, b: Address): World {
    World(1, 0, {a, b}, {b}, (x: Address) => NodeConfig(e, x, {a, b}, None))
  }

  /** `a` proposes block 1, gets both PREPAREs, and gets its own COMMIT back. */
  function PairRun(e: Engine, a: Address, b: Address, header: Header): seq<Act>
    requires DecodeExtra(e, header).Some?
  {
    var p := Pair(e, a, b).Params(a);
    var o0 := StartProposer(p, INITIAL, header, [], []);
    var m1 := Incoming(a, Prepare(p.Here(), HashOf(header)), []);
    var o1 := HandlePrepare(p, o0.state, m1);
    var m2 := Incoming(b, Prepare(p.Here(), HashOf(header)), []);
    var o2 := HandlePrepare(p, o1.state, m2);
    var m3 := Incoming(a, Commit(p.Here(), HashOf(header), CreateCommitSeal(e, header, a).value), []);
    var o3 := HandleCommit(p, o2.state, m3);
    [Act(a, Propose(header, [], []), o0), Act(a, Deliver(m1), o1), Act(a, Deliver(m2), o2), Act(a, Deliver(m3), o3)]
  }

  lemma PairOutcomes(e: Engine, a: Address, b: Address, header: Header)
    requires e.Lawful() && DecodeExtra(e, header).Some? && a != b
    ensures
      var acts, h, seal := PairRun(e, a, b, header), HashOf(header), CreateCommitSeal(e, header, a).value;
      && acts[1].o == Outcome(acts[0].o.state.(prepares := map[a := h]), [])
      && acts[2].o.state == acts[0].o.state.(prepares := map[a := h, b := h], phase := CommitSent)
      && acts[2].o.decisions == [Broadcast(Commit(View(1, 0), h, seal))]
      && acts[3].o == Outcome(acts[2].o.state.(commits := map[a := seal]), [])
  {
    var acts, h := PairRun(e, a, b, header), HashOf(header);
    assert |{a, b}| == 2;
    assert acts[0].o.state.prepares[a := h] == map[a := h] && map[a := h].Keys == {a};
    assert map[a := h][b := h] == map[a := h, b := h] && map[a := h, b := h].Keys == {a, b};
    SealRoundTrip(e, header, a);
    assert map[][a := CreateCommitSeal(e, header, a).value].Keys == {a};
  }

  lemma PairMayAct(e: Engine, a: Address, b: Address, header: Header, sent: seq<Sent>, k: nat)
    requires e.Lawful() && DecodeExtra(e, header).Some? && a != b && 1 <= k <= 3
    requires k == 2 || Sent(a, PairRun(e, a, b, header)[k].e.m.body) in sent
    ensures
      var acts := PairRun(e, a, b, header);
      Allowed(Pair(e, a, b), Member(acts[k - 1].o.state, true, true, false, k == 3), sent, acts[k])
  {
    PairOutcomes(e, a, b, header);
  }

  /** Where `a` stands after its first `k` acts, and what it has sent. */
  ghost predicate PairStands(e: Engine, a: Address, b: Address, header: Header, k: nat)
    requires DecodeExtra(e, header).Some? && 1 <= k <= 4
  {
    var w, acts := Pair(e, a, b), PairRun(e, a, b, header);
    && Legal(w, acts[..k]) && a in Play(w, acts[..k]).members
    && Play(w, acts[..k]).members[a] == Member(acts[k - 1].o.state, true, true, false, k >= 3)
    && Sent(a, Prepare(View(1, 0), HashOf(header))) in Play(w, acts[..k]).sent
    && (k >= 3 ==>
          Sent(a, Commit(View(1, 0), HashOf(header), CreateCommitSeal(e, header, a).value)) in Play(w, acts[..k]).sent)
  }

  lemma PairStarts(e: Engine, a: Address, b: Address, header: Header)
    requires e.Lawful() && DecodeExtra(e, header).Some? && a != b
    ensures PairStands(e, a, b, header, 1)
  {
    var w, acts := Pair(e, a, b), PairRun(e, a, b, header);
    FewBroadcasts(a, acts[0].o.decisions);
    assert CanAct(w, Start(w), acts[0]);
    LegalNext(w, [], acts[0]);
    assert acts[..1] == [] + [acts[0]];
    assert AfterAct(Start(w), acts[0]).sent[1] == Sent(a, Prepare(View(1, 0), HashOf(header)));
  }

  lemma PairOutputs(e: Engine, a: Address, b: Address, header: Header, k: nat)
    requires e.Lawful() && DecodeExtra(e, header).Some? && a != b && 1 <= k <= 3
    ensures
      var acts, seal := PairRun(e, a, b, header), CreateCommitSeal(e, header, a).value;
      && acts[k].a == a && acts[k].e.Deliver?
      && IsVote(acts[k].o.decisions) == (k == 2)
      && Output(acts[k]) == if k == 2 then [Sent(a, Commit(View(1, 0), HashOf(header), seal))] else []
  {
    PairOutcomes(e, a, b, header);
    FewBroadcasts(a, PairRun(e, a, b, header)[k].o.decisions);
  }

  lemma PairGoesOn(e: Engine, a: Address, b: Address, header: Header, k: nat)
    requires e.Lawful() && DecodeExtra(e, header).Some? && a != b && 1 <= k <= 3
    requires PairStands(e, a, b, header, k)
    ensures PairStands(e, a, b, header, k + 1)
  {
    var w, acts := Pair(e, a, b), PairRun(e, a, b, header);
    var net := Play(w, acts[..k]);
    PairMayAct(e, a, b, header, net.sent, k);
    PairOutputs(e, a, b, header, k);
    LegalNext(w, acts[..k], acts[k]);
    TakeNext(acts, k);
    assert Play(w, acts[..k + 1]).members[a] == After(net.members[a], acts[k].e, acts[k].o);
    assert Play(w, acts[..k + 1]).sent == net.sent + Output(acts[k]);
  }

  lemma PairReaches(e: Engine, a: Address, b: Address, header: Header)
    requires e.Lawful() && DecodeExtra(e, header).Some? && a != b
    ensures
      var w, acts := Pair(e, a, b), PairRun(e, a, b, header);
      && Legal(w, acts) && a in Play(w, acts).members
      && Play(w, acts).members[a].core.proposal == Some(header)
      && NeedsOneMore(w.Params(a), Play(w, acts).members[a].core, b)
  {
    PairStarts(e, a, b, header);
    PairGoesOn(e, a, b, header, 1);
    PairGoesOn(e, a, b, header, 2);
    PairGoesOn(e, a, b, header, 3);
    PairOutcomes(e, a, b, header);
    var acts := PairRun(e, a, b, header);
    assert acts[..4] == acts;
    assert |{a, b}| == 2;
  }

  /** So there is a run whose committed header followers refuse, for every engine. */
  lemma UnsealedRunIsRefused(e: Engine, a: Address, b: Address) returns (w: World, acts: seq<Act>)
    requires e.Lawful() && a != b
    ensures Legal(w, acts) && Commits(acts, 4) && acts[4].a == a && w.Honest(a)
    ensures IsConfig(w.cfg(a), e, w.validators, None)
    ensures |acts[4].o.decisions| == 1 && acts[4].o.decisions[0].CommitBlock?
    ensures !IsCommitted(e, w.validators, acts[4].o.decisions[0].header, None)
  {
    SampleProposalIsGood(e, a, {a, b});
    var header := SampleProposal(e, a).value;
    w := Pair(e, a, b);
    PairReaches(e, a, b, header);
    acts := EmptySealCommits(w, PairRun(e, a, b, header), a, b, e, None);
  }

  // ----- A verified proposal can be made final

  /** The callbacks of validator `x`, with its own key to seal. */
  ghost predicate IsConfigOf(w: World, e: Engine, parent: Option<Header>, x: Address) {
    IsConfig(w.cfg(x), e, w.validators, parent) && forall h :: w.cfg(x).commitSealSigner(h) == CreateCommitSeal(e, h, x)
  }

  /** Members of an honest quorum, the proposer among them, can be given a proposal that passes
      verification and, after round 0, carries a certificate. */
  ghost predicate CanTake(w: World, e: Engine, parent: Option<Header>, offer: Body, leader: Address, q: set<Address>) {
    && |q| >= Quorum(|w.validators|) && leader in q
    && offer.Proposal? && offer.view == w.Here() && offer.header.Some?
    && VerifyProposal(e, w.validators, offer.header.value, parent) == None
    && forall x :: x in q ==> IsTaker(w, e, parent, offer.rcc, x)
  }

  ghost predicate IsTaker(w: World, e: Engine, parent: Option<Header>, rcc: seq<Signed>, x: Address) {
    w.Honest(x) && IsConfigOf(w, e, parent, x) && (w.round == 0 || IsCertificate(w.Params(x), rcc))
  }

  function SealOf(e: Engine, h: Header, x: Address): seq<byte> {
    var seal := CreateCommitSeal(e, h, x);
    if seal.Some? then seal.value else []
  }

  lemma TakersAreReady(w: World, e: Engine, parent: Option<Header>, offer: Body, leader: Address, q: set<Address>)
    returns (plan: Plan)
    requires e.Lawful() && CanTake(w, e, parent, offer, leader, q)
    ensures IsPlan(w, plan) && plan.quorum == q && plan.leader == leader
    ensures plan.header == offer.header.value && plan.payload == offer.payload
    ensures forall x :: plan.seal(x) == SealOf(e, plan.header, x)
  {
    var h := offer.header.value;
    plan := Plan(leader, q, h, offer.payload, offer.rcc, x => SealOf(e, h, x));
    forall x | x in q
      ensures IsReady(w, plan, x)
    {
      forall y: Address
        ensures RecoverCommitSealSigner(e, h, SealOf(e, h, y)) == Some(y)
      {
        SealRoundTrip(e, h, y);
      }
      forall n: Need
        ensures Meets(w, plan, x, n)
      {
        match n
        case Honesty =>
        case Approval =>
        case Sealing =>
        case Finalising =>
      }
    }
  }

  /** The member commits a header for the proposal and its payload, and every follower accepts it. */
  ghost predicate MakesFinal(w: World, e: Engine, parent: Option<Header>, offer: Body, acts: seq<Act>, x: Address) {
    exists act :: act in acts && IsFinal(w, e, parent, offer, x, act)
  }

  ghost predicate IsFinal(w: World, e: Engine, parent: Option<Header>, offer: Body, x: Address, act: Act) {
    && offer.Proposal? && act.a == x && act.o.state.proposal == offer.header
    && |act.o.decisions| == 1 && act.o.decisions[0].CommitBlock? && act.o.decisions[0].payload == offer.payload
    && IsCommitted(e, w.validators, act.o.decisions[0].header, parent)
  }

  lemma DecisionIsFinal(w: World, e: Engine, parent: Option<Header>, offer: Body, plan: Plan, x: Address, act: Act)
    requires e.Lawful() && offer.Proposal? && offer.header == Some(plan.header) && offer.payload == plan.payload
    requires VerifyProposal(e, w.validators, plan.header, parent) == None && IsConfigOf(w, e, parent, x)
    requires forall y :: y in plan.quorum ==> w.Honest(y)
    requires forall y :: plan.seal(y) == SealOf(e, plan.header, y)
    requires IsDecision(w, plan, x, act)
    ensures IsFinal(w, e, parent, offer, x, act)
  {
    var h, commits := plan.header, act.o.state.commits;
    forall y | y in commits
      ensures y in w.validators && RecoverCommitSealSigner(e, h, commits[y]) == Some(y)
    {
      SealRoundTrip(e, h, y);
    }
    SealedProposalIsCommitted(e, w.validators, h, parent, commits);
  }

  lemma ThroughIsFinal(w: World, e: Engine, parent: Option<Header>, offer: Body, leader: Address, plan: Plan,
                       acts: seq<Act>, x: Address)
    requires e.Lawful() && CanTake(w, e, parent, offer, leader, plan.quorum) && x in plan.quorum
    requires offer.header == Some(plan.header) && offer.payload == plan.payload
    requires forall y :: plan.seal(y) == SealOf(e, plan.header, y)
    requires Decides(w, plan, acts, x)
    ensures MakesFinal(w, e, parent, offer, acts, x)
  {
    assert VerifyProposal(e, w.validators, offer.header.value, parent) == None;
    assert forall y :: y in plan.quorum ==> w.Honest(y);
    assert IsTaker(w, e, parent, offer.rcc, x);
    var act :| act in acts && IsDecision(w, plan, x, act);
    DecisionIsFinal(w, e, parent, offer, plan, x, act);
  }

  /** From proposal to finality: for a proposal that passes verification, and any honest quorum that
      includes its proposer, there is a run in which every member commits it, as a header that every
      follower accepts. */
  lemma VerifiedBlockIsFinal(w: World, e: Engine, parent: Option<Header>, offer: Body, leader: Address, q: set<Address>)
    returns (acts: seq<Act>)
    requires e.Lawful() && CanTake(w, e, parent, offer, leader, q)
    ensures Legal(w, acts) && forall x :: x in q ==> MakesFinal(w, e, parent, offer, acts, x)
  {
    var plan := TakersAreReady(w, e, parent, offer, leader, q);
    acts := ViewDecides(w, plan);
    forall x | x in q
      ensures MakesFinal(w, e, parent, offer, acts, x)
    {
      assert IsThrough(w, plan, acts, x);
      ThroughIsFinal(w, e, parent, offer, leader, plan, acts, x);
    }
  }
}

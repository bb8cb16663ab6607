/**
 All validators of one view, over a network that may drop, delay, repeat and reorder messages.

 Each honest validator runs one core.  Faulty validators may send anything.  A message from an
 honest validator that belongs to this view is delivered only if that validator sent it;
 its messages for other views are not tracked, and may be anything.
 */
module QbftNetwork {
  import opened Primitives
  import opened Qbft

  datatype Sent = Sent(from: Address, body: Body)

  /** An honest validator: its core, whether backlog replay is over, whether it proposed, whether
      its round timer has fired, and whether it broadcast a COMMIT. */
  datatype Member = Member(core: State, live: bool, proposed: bool, timedOut: bool, voted: bool)

  datatype World = World(
    sequence: nat, round: nat, validators: set<Address>, byz: set<Address>, cfg: Address -> Config)
  {
    function Params(a: Address): Params {
      Qbft.Params(sequence, round, Quorum(|validators|), validators, cfg(a))
    }

    function Here(): View {
      View(sequence, round)
    }

    function Next(): View {
      View(sequence, round + 1)
    }

    predicate Honest(a: Address) {
      a in validators && a !in byz
    }
  }

  datatype Net = Net(members: map<Address, Member>, sent: seq<Sent>)

  datatype Event =
    | Replay(m: Incoming)
    | Propose(header: Header, payload: seq<byte>, rcc: seq<Signed>)
    | Deliver(m: Incoming)
    | Expire

  /** Validator `a` meets event `e`, with outcome `o`. */
  datatype Act = Act(a: Address, e: Event, o: Outcome)

  // ----- One act

  /** Honest validators say these things only in this view. */
  predicate Local(w: World, b: Body) {
    match b
    case Proposal(v, _, _, _) => v == w.Here()
    case Prepare(v, _) => v == w.Here()
    case Commit(v, _, _) => v == w.Here()
    case Change(rc) => rc.view == w.Next()
    case Malformed => false
  }

  ghost predicate Deliverable(w: World, sent: seq<Sent>, m: Incoming) {
    w.Honest(m.from) && Local(w, m.body) ==> Sent(m.from, m.body) in sent
  }

  /** Backlog replay comes first and holds only proposals; the proposer starts once, before any
      other input; the timer fires at most once.  A validator that panics acts no more. */
  ghost predicate Allowed(w: World, n: Member, sent: seq<Sent>, act: Act) {
    var p := w.Params(act.a);
    match act.e
    case Replay(m) =>
      !n.live && m.body.Proposal? && Deliverable(w, sent, m) && HasProposal(n.core) && Handles(p, n.core, m, act.o)
    case Propose(header, payload, rcc) => !n.live && act.o == StartProposer(p, n.core, header, payload, rcc)
    case Deliver(m) =>
      Deliverable(w, sent, m) && HasProposal(n.core) && !Panics(p, n.core, m) && Handles(p, n.core, m, act.o)
    case Expire => !n.timedOut && act.o == Timeout(p, n.core)
  }

  predicate IsVote(ds: seq<Decision>) {
    |ds| == 1 && ds[0].Broadcast? && ds[0].body.Commit?
  }

  function After(n: Member, e: Event, o: Outcome): Member {
    match e
    case Replay(_) => n.(core := o.state)
    case Propose(_, _, _) => n.(core := o.state, live := true, proposed := true)
    case Deliver(_) => n.(core := o.state, live := true, voted := n.voted || IsVote(o.decisions))
    case Expire => n.(core := o.state, live := true, timedOut := true)
  }

  function Broadcasts(a: Address, ds: seq<Decision>): seq<Sent> {
    if ds == [] then []
    else (if ds[0].Broadcast? then [Sent(a, ds[0].body)] else []) + Broadcasts(a, ds[1..])
  }

  lemma FewBroadcasts(a: Address, ds: seq<Decision>)
    ensures ds == [] ==> Broadcasts(a, ds) == []
    ensures |ds| == 1 ==> Broadcasts(a, ds) == if ds[0].Broadcast? then [Sent(a, ds[0].body)] else []
    ensures |ds| == 2 && ds[0].Broadcast? && ds[1].Broadcast? ==>
      Broadcasts(a, ds) == [Sent(a, ds[0].body), Sent(a, ds[1].body)]
  {
    if |ds| > 0 {
      assert |ds| == 1 ==> Broadcasts(a, ds[1..]) == [];
      assert |ds| == 2 && ds[1].Broadcast? ==>
        Broadcasts(a, ds[1..]) == [Sent(a, ds[1].body)] + Broadcasts(a, ds[1..][1..]);
    }
  }

  /** What the act puts on the network; decisions from backlog replay are dropped. */
  function Output(act: Act): seq<Sent> {
    if act.e.Replay? then [] else Broadcasts(act.a, act.o.decisions)
  }

  // ----- Runs

  function Start(w: World): Net {
    Net(map a | a in w.validators && a !in w.byz :: Member(INITIAL, false, false, false, false), [])
  }

  /** The network after a sequence of acts. */
  function Play(w: World, acts: seq<Act>): Net {
    if acts == [] then Start(w)
    else
      var act, net := acts[|acts| - 1], Play(w, acts[..|acts| - 1]);
      if act.a in net.members then AfterAct(net, act) else net
  }

  function AfterAct(net: Net, act: Act): Net
    requires act.a in net.members
  {
    Net(net.members[act.a := After(net.members[act.a], act.e, act.o)], net.sent + Output(act))
  }

  ghost predicate CanAct(w: World, net: Net, act: Act) {
    act.a in net.members && Allowed(w, net.members[act.a], net.sent, act)
  }

  /** Act `k` is possible in the network the earlier acts lead to. */
  ghost predicate IsPossible(w: World, acts: seq<Act>, k: nat)
    requires k < |acts|
  {
    CanAct(w, Play(w, acts[..k]), acts[k])
  }

  ghost predicate Legal(w: World, acts: seq<Act>) {
    forall k :: 0 <= k < |acts| ==> IsPossible(w, acts, k)
  }

  lemma LegalFront(w: World, acts: seq<Act>, i: nat)
    requires Legal(w, acts) && i <= |acts|
    ensures Legal(w, acts[..i])
    ensures i < |acts| ==> CanAct(w, Play(w, acts[..i]), acts[i])
    ensures i < |acts| ==> Play(w, acts[..i + 1]) == AfterAct(Play(w, acts[..i]), acts[i])
  {
    forall k | 0 <= k < i
      ensures IsPossible(w, acts[..i], k)
    {
      assert acts[..i][..k] == acts[..k] && IsPossible(w, acts, k);
    }
    if i < |acts| {
      assert IsPossible(w, acts, i);
      assert acts[..i + 1][..i] == acts[..i];
    }
  }

  lemma LegalNext(w: World, acts: seq<Act>, act: Act)
    requires Legal(w, acts) && CanAct(w, Play(w, acts), act)
    ensures Legal(w, acts + [act]) && Play(w, acts + [act]) == AfterAct(Play(w, acts), act)
  {
    var more := acts + [act];
    assert more[..|acts|] == acts;
    forall k | 0 <= k < |more|
      ensures IsPossible(w, more, k)
    {
      assert more[..k] == acts[..k];
      assert k < |acts| ==> IsPossible(w, acts, k);
    }
  }

  // ----- What holds of one validator

  predicate Ended(phase: Phase) {
    phase.RoundChanging? || phase.Committed?
  }

  /** Facts about the validator alone. */
  ghost predicate Fit(p: Params, n: Member) {
    var s := n.core;
    && HasProposal(s)
    && (s.phase == New || !n.live ==> s.prepares == map[] && s.commits == map[] && !n.voted)
    && (s.phase == New ==> s.proposal == None)
    && (!n.live ==> !n.proposed && !n.timedOut)
    && (n.timedOut ==> Ended(s.phase))
    && (s.phase == RoundChanging ==> n.timedOut)
    && (n.voted ==> s.phase != Prepared && s.proposal.Some? && |s.prepares| >= p.quorum)
    && (s.phase == Committed ==> |s.commits| >= p.quorum)
    && (s.proposal.Some? ==> n.proposed || p.cfg.proposalVerifier(s.proposal.value))
  }

  /** The votes a core has counted were cast for its proposal. */
  ghost predicate Counted(w: World, s: State, sent: seq<Sent>) {
    && (forall x :: x in s.prepares ==>
          x in w.validators && s.prepares[x] == s.hash && (w.Honest(x) ==> Sent(x, Prepare(w.Here(), s.hash)) in sent))
    && (forall x :: x in s.commits ==>
          x in w.validators && (w.Honest(x) ==> Sent(x, Commit(w.Here(), s.hash, s.commits[x])) in sent))
  }

  /** The round change reports the validator's proposal. */
  predicate Reports(p: Params, s: State, rc: RoundChange) {
    s.proposal.Some? && rc == RoundChange(View(p.sequence, p.round + 1), p.round, Encoded(s.proposal.value), s.payload)
  }

  /** What it means for the validator to have broadcast `b`. */
  ghost predicate Says(p: Params, n: Member, b: Body) {
    && n.live && n.core.phase != New
    && match b
       case Proposal(v, header, payload, _) =>
         v == p.Here() && n.proposed && n.core.proposal == header && n.core.payload == payload
       case Prepare(v, h) => v == p.Here() && h == n.core.hash && n.core.proposal.Some?
       case Commit(v, h, _) => v == p.Here() && h == n.core.hash && n.voted
       case Change(rc) =>
         && n.timedOut && rc.view == View(p.sequence, p.round + 1)
         && (Reports(p, n.core, rc) || (rc.block == NoBlock && n.core.proposal == None))
       case Malformed => false
  }

  predicate SameKind(b: Body, c: Body) {
    || (b.Proposal? && c.Proposal?)
    || (b.Prepare? && c.Prepare?)
    || (b.Commit? && c.Commit?)
    || (b.Change? && c.Change?)
  }

  /** The validator stands by everything it broadcast, and broadcast each kind at most once. */
  ghost predicate Own(p: Params, a: Address, n: Member, sent: seq<Sent>) {
    && (forall i :: 0 <= i < |sent| && sent[i].from == a ==> Says(p, n, sent[i].body))
    && (forall i, j :: 0 <= i < j < |sent| && sent[i].from == a && sent[j].from == a ==>
          !SameKind(sent[i].body, sent[j].body))
  }

  ghost predicate Holds(w: World, a: Address, n: Member, sent: seq<Sent>) {
    Fit(w.Params(a), n) && Counted(w, n.core, sent) && Own(w.Params(a), a, n, sent)
  }

  ghost predicate Inv(w: World, net: Net) {
    && (forall a :: a in net.members <==> w.Honest(a))
    && (forall i :: 0 <= i < |net.sent| ==> net.sent[i].from in net.members)
    && forall a :: a in net.members ==> Holds(w, a, net.members[a], net.sent)
  }

  // ----- One act keeps it: the actor

  /** What an act may change about a validator that has broadcast something. */
  ghost predicate Progress(n: Member, n': Member) {
    && (n.live ==> n'.live) && (n.proposed ==> n'.proposed)
    && (n.timedOut ==> n'.timedOut) && (n.voted ==> n'.voted)
    && (n.live && n.core.phase != New ==>
          && n'.core.phase != New
          && n'.core.proposal == n.core.proposal && n'.core.payload == n.core.payload && n'.core.hash == n.core.hash
          && (n.timedOut ==> n'.voted == n.voted))
  }

  lemma StillSays(p: Params, n: Member, n': Member, b: Body)
    requires Progress(n, n') && Says(p, n, b)
    ensures Says(p, n', b)
  {
  }

  /** `b` is new: the validator can say it now, and has said nothing of the kind before. */
  ghost predicate IsNews(p: Params, n: Member, n': Member, b: Body) {
    Says(p, n', b) && forall c :: Says(p, n, c) ==> !SameKind(c, b)
  }

  /** The act is sound for the actor: it keeps the local facts and puts only news on the network. */
  ghost predicate IsSound(p: Params, a: Address, n: Member, n': Member, out: seq<Sent>) {
    && Fit(p, n')
    && Progress(n, n')
    && (forall i :: 0 <= i < |out| ==> out[i].from == a && IsNews(p, n, n', out[i].body))
    && (forall i, j :: 0 <= i < j < |out| ==> !SameKind(out[i].body, out[j].body))
  }

  lemma ProposalIsSound(w: World, n: Member, act: Act, m: Incoming)
    requires (act.e == Replay(m) && !n.live) || act.e == Deliver(m)
    requires m.body.Proposal? && Fit(w.Params(act.a), n) && act.o == HandleProposal(w.Params(act.a), n.core, m)
    ensures IsSound(w.Params(act.a), act.a, n, After(n, act.e, act.o), Output(act))
  {
    FewBroadcasts(act.a, act.o.decisions);
  }

  lemma PrepareIsSound(w: World, n: Member, act: Act, m: Incoming)
    requires act.e == Deliver(m)
    requires m.body.Prepare? && Fit(w.Params(act.a), n) && act.o == HandlePrepare(w.Params(act.a), n.core, m)
    ensures IsSound(w.Params(act.a), act.a, n, After(n, act.e, act.o), Output(act))
  {
    FewBroadcasts(act.a, act.o.decisions);
  }

  lemma CommitIsSound(w: World, n: Member, act: Act, m: Incoming)
    requires act.e == Deliver(m) && m.body.Commit? && m.from in w.validators && !Panics(w.Params(act.a), n.core, m)
    requires Fit(w.Params(act.a), n) && act.o == HandleCommit(w.Params(act.a), n.core, m)
    ensures IsSound(w.Params(act.a), act.a, n, After(n, act.e, act.o), Output(act))
  {
    FewBroadcasts(act.a, act.o.decisions);
  }

  lemma ChangeIsSound(w: World, n: Member, act: Act, m: Incoming)
    requires act.e == Deliver(m) && m.body.Change?
    requires Fit(w.Params(act.a), n) && HandlesChange(w.Params(act.a), n.core, m, act.o)
    ensures IsSound(w.Params(act.a), act.a, n, After(n, act.e, act.o), Output(act))
  {
    FewBroadcasts(act.a, act.o.decisions);
  }

  lemma StartIsSound(w: World, n: Member, act: Act)
    requires act.e.Propose? && !n.live && Fit(w.Params(act.a), n)
    requires act.o == StartProposer(w.Params(act.a), n.core, act.e.header, act.e.payload, act.e.rcc)
    ensures IsSound(w.Params(act.a), act.a, n, After(n, act.e, act.o), Output(act))
  {
    FewBroadcasts(act.a, act.o.decisions);
  }

  lemma TimeoutIsSound(w: World, n: Member, act: Act)
    requires act.e.Expire? && !n.timedOut && Fit(w.Params(act.a), n) && act.o == Timeout(w.Params(act.a), n.core)
    ensures IsSound(w.Params(act.a), act.a, n, After(n, act.e, act.o), Output(act))
  {
    FewBroadcasts(act.a, act.o.decisions);
  }

  lemma ActIsSound(w: World, n: Member, sent: seq<Sent>, act: Act)
    requires Fit(w.Params(act.a), n) && Allowed(w, n, sent, act)
    ensures IsSound(w.Params(act.a), act.a, n, After(n, act.e, act.o), Output(act))
  {
    match act.e
    case Propose(_, _, _) => StartIsSound(w, n, act);
    case Expire => TimeoutIsSound(w, n, act);
    case Replay(m) => MessageIsSound(w, n, act, m);
    case Deliver(m) => MessageIsSound(w, n, act, m);
  }

  lemma MessageIsSound(w: World, n: Member, act: Act, m: Incoming)
    requires (act.e == Replay(m) && !n.live && m.body.Proposal?) || act.e == Deliver(m)
    requires Fit(w.Params(act.a), n) && !Panics(w.Params(act.a), n.core, m)
    requires Handles(w.Params(act.a), n.core, m, act.o)
    ensures IsSound(w.Params(act.a), act.a, n, After(n, act.e, act.o), Output(act))
  {
    if m.from in w.validators {
      match m.body
      case Proposal(_, _, _, _) => ProposalIsSound(w, n, act, m);
      case Prepare(_, _) => PrepareIsSound(w, n, act, m);
      case Commit(_, _, _) => CommitIsSound(w, n, act, m);
      case Change(_) => ChangeIsSound(w, n, act, m);
      case Malformed =>
    }
  }

  /** The effect of a message on the counted votes. */
  ghost predicate Counts(p: Params, s: State, m: Incoming, s': State) {
    || (s'.hash == s.hash && s'.prepares == s.prepares && s'.commits == s.commits)
    || (s.phase == New && s'.prepares == s.prepares && s'.commits == s.commits)
    || (&& m.body == Prepare(p.Here(), s.hash) && m.from in p.validators && s'.hash == s.hash
        && s'.prepares == s.prepares[m.from := s.hash] && s'.commits == s.commits)
    || (&& m.body.Commit? && m.body == Commit(p.Here(), s.hash, m.body.seal) && m.from in p.validators
        && s'.hash == s.hash && s'.prepares == s.prepares && s'.commits == s.commits[m.from := m.body.seal])
  }

  lemma MessageCounts(p: Params, s: State, m: Incoming, o: Outcome)
    requires HasProposal(s) && !Panics(p, s, m) && Handles(p, s, m, o)
    ensures Counts(p, s, m, o.state)
  {
  }

  lemma MessageIsCounted(w: World, n: Member, sent: seq<Sent>, act: Act, m: Incoming)
    requires Fit(w.Params(act.a), n) && Counted(w, n.core, sent)
    requires Deliverable(w, sent, m) && Counts(w.Params(act.a), n.core, m, act.o.state)
    ensures Counted(w, act.o.state, sent)
  {
  }

  lemma ActIsCounted(w: World, n: Member, sent: seq<Sent>, act: Act)
    requires Fit(w.Params(act.a), n) && Counted(w, n.core, sent) && Allowed(w, n, sent, act)
    ensures Counted(w, act.o.state, sent)
  {
    match act.e
    case Replay(m) =>
      MessageCounts(w.Params(act.a), n.core, m, act.o);
      MessageIsCounted(w, n, sent, act, m);
    case Deliver(m) =>
      MessageCounts(w.Params(act.a), n.core, m, act.o);
      MessageIsCounted(w, n, sent, act, m);
    case Propose(_, _, _) =>
    case Expire =>
  }

  // ----- One act keeps it: everyone

  lemma MoreIsSent(w: World, s: State, sent: seq<Sent>, more: seq<Sent>)
    requires Counted(w, s, sent)
    ensures Counted(w, s, sent + more)
  {
  }

  lemma ActorOwns(p: Params, a: Address, n: Member, n': Member, sent: seq<Sent>, out: seq<Sent>)
    requires Own(p, a, n, sent) && IsSound(p, a, n, n', out)
    ensures Own(p, a, n', sent + out)
  {
    var all := sent + out;
    forall i | 0 <= i < |all| && all[i].from == a
      ensures Says(p, n', all[i].body)
    {
      if i < |sent| {
        StillSays(p, n, n', sent[i].body);
      } else {
        assert IsNews(p, n, n', out[i - |sent|].body);
      }
    }
    forall i, j | 0 <= i < j < |all| && all[i].from == a && all[j].from == a
      ensures !SameKind(all[i].body, all[j].body)
    {
      if i < |sent| <= j {
        assert IsNews(p, n, n', out[j - |sent|].body);
      }
    }
  }

  lemma OthersOwn(p: Params, a: Address, n: Member, sent: seq<Sent>, out: seq<Sent>)
    requires Own(p, a, n, sent) && forall i :: 0 <= i < |out| ==> out[i].from != a
    ensures Own(p, a, n, sent + out)
  {
  }

  lemma ActorHolds(w: World, n: Member, sent: seq<Sent>, act: Act)
    requires Holds(w, act.a, n, sent) && Allowed(w, n, sent, act)
    ensures Holds(w, act.a, After(n, act.e, act.o), sent + Output(act))
    ensures forall i :: 0 <= i < |Output(act)| ==> Output(act)[i].from == act.a
  {
    var n', out := After(n, act.e, act.o), Output(act);
    ActIsSound(w, n, sent, act);
    ActIsCounted(w, n, sent, act);
    ActorOwns(w.Params(act.a), act.a, n, n', sent, out);
    MoreIsSent(w, n'.core, sent, out);
  }

  lemma OtherHolds(w: World, a: Address, n: Member, sent: seq<Sent>, out: seq<Sent>)
    requires Holds(w, a, n, sent) && forall i :: 0 <= i < |out| ==> out[i].from != a
    ensures Holds(w, a, n, sent + out)
  {
    OthersOwn(w.Params(a), a, n, sent, out);
    MoreIsSent(w, n.core, sent, out);
  }

  lemma ActKeepsInv(w: World, net: Net, act: Act)
    requires Inv(w, net) && CanAct(w, net, act)
    ensures Inv(w, AfterAct(net, act))
  {
    var net' := AfterAct(net, act);
    ActorHolds(w, net.members[act.a], net.sent, act);
    forall a | a in net'.members
      ensures Holds(w, a, net'.members[a], net'.sent)
    {
      if a != act.a {
        OtherHolds(w, a, net.members[a], net.sent, Output(act));
      }
    }
  }

  /** In every run, every honest validator satisfies its invariant. */
  lemma {:induction false} RunKeepsInv(w: World, acts: seq<Act>)
    requires Legal(w, acts)
    ensures Inv(w, Play(w, acts))
  {
    if acts == [] {
      assert forall a :: a in Start(w).members ==> Holds(w, a, Start(w).members[a], []);
    } else {
      var n := |acts| - 1;
      LegalFront(w, acts, n);
      RunKeepsInv(w, acts[..n]);
      ActKeepsInv(w, Play(w, acts[..n]), acts[n]);
    }
  }

  // ----- Quorums

  /** floor(2N/3) + 1 is N - f for the largest f below N/3. */
  lemma QuorumIsAllButF(n: pos)
    ensures Quorum(n) == n - (n - 1) / 3 && 2 * Quorum(n) - n > (n - 1) / 3
  {
  }

  /** At most a third of the validators are faulty. */
  predicate FewFaulty(w: World) {
    w.validators != {} && w.byz <= w.validators && |w.byz| <= (|w.validators| - 1) / 3
  }

  /** A quorum holds at least quorum - f honest validators. */
  lemma HonestInQuorum(w: World, q: set<Address>) returns (honest: set<Address>)
    requires FewFaulty(w) && q <= w.validators && |q| >= Quorum(|w.validators|)
    ensures honest == q - w.byz && |honest| >= Quorum(|w.validators|) - (|w.validators| - 1) / 3 > 0
    ensures forall x :: x in honest ==> w.Honest(x)
  {
    honest := q - w.byz;
    assert q == honest + q * w.byz;
    SubsetIsNoLarger(q * w.byz, w.byz);
    QuorumIsAllButF(|w.validators|);
  }

  /** Two quorums share an honest validator. */
  lemma QuorumsShareHonest(w: World, q: set<Address>, r: set<Address>) returns (x: Address)
    requires FewFaulty(w) && q <= w.validators && r <= w.validators
    requires |q| >= Quorum(|w.validators|) && |r| >= Quorum(|w.validators|)
    ensures x in q && x in r && w.Honest(x)
  {
    assert |q + r| == |q| + |r| - |q * r|;
    SubsetIsNoLarger(q + r, w.validators);
    QuorumIsAllButF(|w.validators|);
    if q * r <= w.byz {
      SubsetIsNoLarger(q * r, w.byz);
      assert false;
    }
    x :| x in q * r && x !in w.byz;
  }

  // ----- Agreement

  /** A COMMIT broadcast by an honest validator is backed by PREPAREs for its hash from a quorum. */
  lemma VoteIsBacked(w: World, net: Net, x: Address, h: Hash, seal: seq<byte>) returns (q: set<Address>)
    requires Inv(w, net) && w.Honest(x) && Sent(x, Commit(w.Here(), h, seal)) in net.sent
    ensures q <= w.validators && |q| >= Quorum(|w.validators|)
    ensures forall y :: y in q && w.Honest(y) ==> Sent(y, Prepare(w.Here(), h)) in net.sent
  {
    assert Holds(w, x, net.members[x], net.sent);
    q := net.members[x].core.prepares.Keys;
  }

  /** An honest validator broadcasts PREPARE for one hash only. */
  lemma OnePrepare(w: World, net: Net, x: Address, h: Hash, h': Hash)
    requires Inv(w, net) && w.Honest(x)
    requires Sent(x, Prepare(w.Here(), h)) in net.sent && Sent(x, Prepare(w.Here(), h')) in net.sent
    ensures h == h'
  {
    assert Holds(w, x, net.members[x], net.sent);
  }

  /** All COMMITs of honest validators in a view name one hash. */
  lemma VotesAgree(w: World, net: Net, x: Address, h: Hash, seal: seq<byte>, y: Address, h': Hash, seal': seq<byte>)
    requires FewFaulty(w) && Inv(w, net) && w.Honest(x) && w.Honest(y)
    requires Sent(x, Commit(w.Here(), h, seal)) in net.sent && Sent(y, Commit(w.Here(), h', seal')) in net.sent
    ensures h == h'
  {
    var q := VoteIsBacked(w, net, x, h, seal);
    var r := VoteIsBacked(w, net, y, h', seal');
    var z := QuorumsShareHonest(w, q, r);
    OnePrepare(w, net, z, h, h');
  }

  /** The message log only grows. */
  lemma {:induction false} SentGrows(w: World, acts: seq<Act>, i: nat)
    requires Legal(w, acts) && i <= |acts|
    ensures Legal(w, acts[..i]) && Play(w, acts[..i]).sent <= Play(w, acts).sent
  {
    LegalFront(w, acts, i);
    if i == |acts| {
      assert acts[..i] == acts;
    } else {
      var n := |acts| - 1;
      LegalFront(w, acts, n);
      SentGrows(w, acts[..n], i);
      assert acts[..n][..i] == acts[..i];
    }
  }

  /** Act `i` of the run emits a CommitBlock decision. */
  predicate Commits(acts: seq<Act>, i: nat) {
    i < |acts| && exists d :: d in acts[i].o.decisions && d.CommitBlock?
  }

  /** The one decision is to commit the core's proposal with the seals it counted. */
  predicate Finalises(cfg: Config, o: Outcome) {
    && o.state.proposal.Some?
    && var final := cfg.commitBlock(o.state.proposal.value, SealList(o.state.commits));
    final.Some? && o.decisions == [CommitBlock(final.value, o.state.payload)]
  }

  /** Some honest validator has voted for the proposal of a committed core. */
  lemma CommittedHasVoter(w: World, net: Net, a: Address) returns (x: Address, seal: seq<byte>)
    requires Inv(w, net) && FewFaulty(w) && a in net.members && net.members[a].core.phase == Committed
    ensures w.Honest(x) && Sent(x, Commit(w.Here(), net.members[a].core.hash, seal)) in net.sent
  {
    assert Holds(w, a, net.members[a], net.sent);
    var s := net.members[a].core;
    var honest := HonestInQuorum(w, s.commits.Keys);
    x :| x in honest;
    seal := s.commits[x];
  }

  /** The emitting core is committed to its proposal. */
  lemma CommitIsFinal(w: World, acts: seq<Act>, i: nat)
    requires Legal(w, acts) && Commits(acts, i)
    ensures
      var net := Play(w, acts[..i + 1]);
      && acts[i].a in net.members && net.members[acts[i].a].core == acts[i].o.state
      && acts[i].o.state.phase == Committed && acts[i].o.state.proposal.Some?
      && acts[i].o.state.hash == HashOf(acts[i].o.state.proposal.value)
      && Finalises(w.cfg(acts[i].a), acts[i].o)
  {
    LegalFront(w, acts, i);
    var net := Play(w, acts[..i]);
    RunKeepsInv(w, acts[..i]);
    assert Holds(w, acts[i].a, net.members[acts[i].a], net.sent);
    OnlyCommitsCommit(w, net.members[acts[i].a], net.sent, acts[i]);
  }

  lemma CommitMeans(w: World, acts: seq<Act>, i: nat) returns (x: Address, seal: seq<byte>)
    requires Legal(w, acts) && FewFaulty(w) && Commits(acts, i)
    ensures acts[i].o.state.proposal.Some?
    ensures w.Honest(x) && Sent(x, Commit(w.Here(), HashOf(acts[i].o.state.proposal.value), seal)) in Play(w, acts).sent
  {
    SentGrows(w, acts, i + 1);
    CommitIsFinal(w, acts, i);
    RunKeepsInv(w, acts[..i + 1]);
    x, seal := CommittedHasVoter(w, Play(w, acts[..i + 1]), acts[i].a);
  }

  /** A CommitBlock decision finalises the core's proposal with the seals it counted. */
  lemma OnlyCommitsCommit(w: World, n: Member, sent: seq<Sent>, act: Act)
    requires Fit(w.Params(act.a), n) && Allowed(w, n, sent, act) && Commits([act], 0)
    ensures act.e.Deliver? && act.o.state.phase == Committed && act.o.state.proposal.Some?
    ensures act.o.state.hash == HashOf(act.o.state.proposal.value) && Finalises(w.cfg(act.a), act.o)
  {
  }

  /** Agreement: in every run with fewer than a third of the validators faulty, all CommitBlock
      decisions of honest validators are for one and the same proposal. */
  lemma Agreement(w: World, acts: seq<Act>, i: nat, j: nat)
    requires Legal(w, acts) && FewFaulty(w) && Commits(acts, i) && Commits(acts, j)
    ensures acts[i].o.state.proposal.Some? && acts[i].o.state.proposal == acts[j].o.state.proposal
  {
    var x, seal := CommitMeans(w, acts, i);
    var y, seal' := CommitMeans(w, acts, j);
    var h, h' := HashOf(acts[i].o.state.proposal.value), HashOf(acts[j].o.state.proposal.value);
    RunKeepsInv(w, acts);
    VotesAgree(w, Play(w, acts), x, h, seal, y, h', seal');
  }

  /** In every run an honest validator broadcasts at most one COMMIT, and all of them name one hash. */
  lemma OneVoteEach(w: World, acts: seq<Act>, i: nat, j: nat)
    requires Legal(w, acts) && FewFaulty(w) && i < j < |Play(w, acts).sent|
    requires Play(w, acts).sent[i].body.Commit? && Play(w, acts).sent[j].body.Commit?
    ensures Play(w, acts).sent[i].from != Play(w, acts).sent[j].from
    ensures Play(w, acts).sent[i].body.hash == Play(w, acts).sent[j].body.hash
  {
    var net := Play(w, acts);
    RunKeepsInv(w, acts);
    var m, m' := net.sent[i], net.sent[j];
    assert Holds(w, m.from, net.members[m.from], net.sent) && Holds(w, m'.from, net.members[m'.from], net.sent);
    VotesAgree(w, net, m.from, m.body.hash, m.body.seal, m'.from, m'.body.hash, m'.body.seal);
  }

  /** A COMMIT is for a header that at least quorum - f honest validators proposed or accepted. */
  lemma VoteIsAccepted(w: World, acts: seq<Act>, i: nat) returns (header: Header, backers: set<Address>)
    requires Legal(w, acts) && FewFaulty(w) && i < |Play(w, acts).sent| && Play(w, acts).sent[i].body.Commit?
    ensures Play(w, acts).sent[i].body.hash == HashOf(header)
    ensures |backers| >= Quorum(|w.validators|) - (|w.validators| - 1) / 3 > 0
    ensures forall y :: y in backers ==>
      && w.Honest(y) && y in Play(w, acts).members && Play(w, acts).members[y].core.proposal == Some(header)
      && (Play(w, acts).members[y].proposed || w.cfg(y).proposalVerifier(header))
  {
    var net, m := Play(w, acts), Play(w, acts).sent[i];
    RunKeepsInv(w, acts);
    assert Holds(w, m.from, net.members[m.from], net.sent);
    header := net.members[m.from].core.proposal.value;
    var q := VoteIsBacked(w, net, m.from, m.body.hash, m.body.seal);
    backers := HonestInQuorum(w, q);
    forall y | y in backers
      ensures y in net.members && net.members[y].core.proposal == Some(header)
      ensures net.members[y].proposed || w.cfg(y).proposalVerifier(header)
    {
      assert Holds(w, y, net.members[y], net.sent);
    }
  }

  // ----- Panics

  /** Only a faulty validator's message can make an honest core panic. */
  lemma PanicNeedsFault(w: World, acts: seq<Act>, a: Address, m: Incoming)
    requires Legal(w, acts) && a in Play(w, acts).members && Deliverable(w, Play(w, acts).sent, m)
    requires Panics(w.Params(a), Play(w, acts).members[a].core, m)
    ensures m.from in w.byz
  {
    var net := Play(w, acts);
    RunKeepsInv(w, acts);
    assert Holds(w, a, net.members[a], net.sent);
    PanicsIff(w.Params(a), net.members[a].core, m);
    if w.Honest(m.from) {
      VoteNamesProposal(w, net, m.from, m.body.hash, m.body.seal);
    }
  }

  lemma VoteNamesProposal(w: World, net: Net, x: Address, h: Hash, seal: seq<byte>)
    requires Inv(w, net) && w.Honest(x) && Sent(x, Commit(w.Here(), h, seal)) in net.sent
    ensures h.HashOf?
  {
    assert Holds(w, x, net.members[x], net.sent);
  }

  /** And it can: a core whose timer fires first panics on a faulty validator's COMMIT for the zero
      hash with any seal. */
  lemma PanicIsReachable(w: World, a: Address, from: Address, seal: seq<byte>, sig: seq<byte>) returns (acts: seq<Act>)
    requires w.Honest(a) && from in w.byz && from in w.validators && |seal| > 0
    ensures Legal(w, acts) && a in Play(w, acts).members
    ensures
      var m := Incoming(from, Commit(w.Here(), ZERO_HASH, seal), sig);
      Deliverable(w, Play(w, acts).sent, m) && Panics(w.Params(a), Play(w, acts).members[a].core, m)
  {
    var act := Act(a, Expire, Timeout(w.Params(a), INITIAL));
    acts := [] + [act];
    LegalNext(w, [], act);
  }
}

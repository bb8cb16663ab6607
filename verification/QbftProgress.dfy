/**
 A view can decide: from any good proposal, for any number of validators, some schedule takes every
 member of an honest quorum to the block, with messages of that quorum alone.
 */
module QbftProgress {
  import opened Primitives
  import opened Qbft
  import opened QbftNetwork
  import opened QbftHistory

  /** What is proposed, by whom, to whom, and the seal each member signs it with. */
  datatype Plan = Plan(
    leader: Address, quorum: set<Address>, header: Header, payload: seq<byte>, rcc: seq<Signed>,
    seal: Address -> seq<byte>)
  {
    function Hash(): Hash {
      HashOf(header)
    }

    function Offer(view: View): Body {
      Proposal(view, Some(header), payload, rcc)
    }
  }

  /** The members are an honest quorum that finds the proposal good, can seal it, and accepts the seals. */
  ghost predicate IsPlan(w: World, plan: Plan) {
    && plan.leader in plan.quorum
    && |plan.quorum| >= Quorum(|w.validators|)
    && forall x :: x in plan.quorum ==> IsReady(w, plan, x)
  }

  datatype Need = Honesty | Approval | Sealing | Finalising

  ghost predicate IsReady(w: World, plan: Plan, x: Address) {
    forall n: Need :: Meets(w, plan, x, n)
  }

  ghost predicate Meets(w: World, plan: Plan, x: Address, n: Need) {
    match n
    case Honesty => w.Honest(x)
    case Approval => IsGood(w.Params(x), plan.Offer(w.Here()))
    case Sealing =>
      && w.cfg(x).commitSealSigner(plan.header) == Some(plan.seal(x))
      && forall y :: y in plan.quorum ==> w.cfg(x).commitSealVerifier(plan.header, plan.seal(y)) == Some(y)
    case Finalising => forall seals :: w.cfg(x).commitBlock(plan.header, seals).Some?
  }

  // ----- Where a member stands

  ghost predicate HasSent(net: Net, x: Address, b: Body) {
    Sent(x, b) in net.sent
  }

  /** The member holds the proposal. */
  predicate Holding(plan: Plan, n: Member) {
    n.core.proposal == Some(plan.header) && n.core.payload == plan.payload && n.core.hash == plan.Hash()
  }

  /** The member has taken the proposal and broadcast PREPARE; it has heard PREPARE from `heard`, and
      if that is a quorum it has broadcast COMMIT. */
  ghost predicate IsPreparing(w: World, plan: Plan, net: Net, x: Address, heard: set<Address>) {
    && x in net.members && Holding(plan, net.members[x])
    && HasSent(net, x, Prepare(w.Here(), plan.Hash()))
    && var s := net.members[x].core;
    && s.prepares.Keys == heard && s.commits == map[]
    && if |heard| >= Quorum(|w.validators|)
       then s.phase == CommitSent && HasSent(net, x, Commit(w.Here(), plan.Hash(), plan.seal(x)))
       else s.phase == Prepared
  }

  /** The seals collected so far are those the members signed. */
  ghost predicate AreSeals(plan: Plan, commits: map<Address, seq<byte>>) {
    forall y :: y in commits ==> y in plan.quorum && commits[y] == plan.seal(y)
  }

  /** The act is this member's commit of the block, with the seals of a quorum of the members. */
  ghost predicate IsDecision(w: World, plan: Plan, x: Address, act: Act) {
    && act.a == x && act.o.state.proposal == Some(plan.header) && act.o.state.payload == plan.payload
    && AreSeals(plan, act.o.state.commits) && |act.o.state.commits| >= Quorum(|w.validators|)
    && Finalises(w.cfg(x), act.o)
  }

  ghost predicate Decides(w: World, plan: Plan, acts: seq<Act>, x: Address) {
    exists act :: act in acts && IsDecision(w, plan, x, act)
  }

  /** The member has heard COMMIT from `heard`, and if that is a quorum it has committed the block. */
  ghost predicate IsCommitting(w: World, plan: Plan, acts: seq<Act>, net: Net, x: Address, heard: set<Address>) {
    && x in net.members && Holding(plan, net.members[x])
    && var s := net.members[x].core;
    if |heard| >= Quorum(|w.validators|) then s.phase == Committed && Decides(w, plan, acts, x)
    else s.phase == CommitSent && s.commits.Keys == heard && AreSeals(plan, s.commits)
  }

  // ----- One act

  /** Everyone else is left alone, and nothing sent is taken back. */
  ghost predicate Only(net: Net, net': Net, x: Address) {
    && net'.members.Keys == net.members.Keys
    && (forall y :: y in net.members && y != x ==> net'.members[y] == net.members[y])
    && forall m :: m in net.sent ==> m in net'.sent
  }

  /** The schedule uses the members and their messages only. */
  ghost predicate Within(plan: Plan, acts: seq<Act>) {
    forall act :: act in acts ==> IsWithin(plan, act)
  }

  predicate IsWithin(plan: Plan, act: Act) {
    && act.a in plan.quorum
    && (act.e.Propose? || (act.e.Deliver? && act.e.m.from in plan.quorum))
  }

  datatype Quality = Lawful | Contained

  /** A legal run within the plan. */
  ghost predicate IsSchedule(w: World, plan: Plan, acts: seq<Act>) {
    forall q: Quality :: Has(w, plan, acts, q)
  }

  ghost predicate Has(w: World, plan: Plan, acts: seq<Act>, q: Quality) {
    match q
    case Lawful => Legal(w, acts)
    case Contained => Within(plan, acts)
  }

  /** `more` continues the schedule `acts` with acts of `x`. */
  ghost predicate Continues(w: World, plan: Plan, acts: seq<Act>, more: seq<Act>, x: Address) {
    && IsSchedule(w, plan, more) && acts <= more && Only(Play(w, acts), Play(w, more), x)
  }

  lemma OneMore(w: World, plan: Plan, acts: seq<Act>, act: Act)
    requires IsSchedule(w, plan, acts) && CanAct(w, Play(w, acts), act) && IsWithin(plan, act)
    ensures Continues(w, plan, acts, acts + [act], act.a)
    ensures Play(w, acts + [act]) == AfterAct(Play(w, acts), act)
  {
    assert Has(w, plan, acts, Lawful) && Has(w, plan, acts, Contained);
    LegalNext(w, acts, act);
    assert Has(w, plan, acts + [act], Lawful) && Has(w, plan, acts + [act], Contained);
  }

  lemma TakeProposal(w: World, plan: Plan, net: Net, x: Address) returns (act: Act)
    requires IsPlan(w, plan) && x in plan.quorum && x in net.members
    requires net.members[x] == Member(INITIAL, false, false, false, false)
    requires HasSent(net, plan.leader, plan.Offer(w.Here()))
    ensures act.a == x && IsWithin(plan, act) && CanAct(w, net, act)
    ensures IsPreparing(w, plan, AfterAct(net, act), x, {})
  {
    var m := Incoming(plan.leader, plan.Offer(w.Here()), []);
    var p := w.Params(x);
    assert Meets(w, plan, x, Honesty) && Meets(w, plan, x, Approval) && Meets(w, plan, plan.leader, Honesty);
    act := Act(x, Deliver(m), HandleProposal(p, INITIAL, m));
    ProposalIsTakenIff(p, INITIAL, m, act.o);
    FewBroadcasts(x, act.o.decisions);
    assert Output(act)[0] == Sent(x, Prepare(w.Here(), plan.Hash()));
    assert Output(act)[0] in AfterAct(net, act).sent;
  }

  /** A PREPARE for the proposal is counted, and the one that completes a quorum is answered. */
  lemma PrepareCounts(p: Params, s: State, m: Incoming, header: Header, seal: seq<byte>)
    requires s.proposal == Some(header) && s.hash == HashOf(header) && (s.phase == Prepared || s.phase == CommitSent)
    requires m.body == Prepare(p.Here(), s.hash) && p.cfg.commitSealSigner(header) == Some(seal)
    ensures
      var o, more := HandlePrepare(p, s, m), s.prepares[m.from := s.hash];
      var votes := s.phase == Prepared && |more| >= p.quorum;
      && o.state == s.(prepares := more, phase := if votes then CommitSent else s.phase)
      && o.decisions == if votes then [Broadcast(Commit(p.Here(), s.hash, seal))] else []
  {
  }

  /** A well-sealed COMMIT for the proposal is counted, and the one that completes a quorum decides. */
  lemma CommitCounts(p: Params, s: State, m: Incoming, header: Header)
    requires s.proposal == Some(header) && s.hash == HashOf(header) && s.phase == CommitSent
    requires m.from in p.validators && m.body.Commit? && m.body == Commit(p.Here(), s.hash, m.body.seal)
    requires p.cfg.commitSealVerifier(header, m.body.seal) == Some(m.from)
    requires forall seals :: p.cfg.commitBlock(header, seals).Some?
    ensures
      var o, more := HandleCommit(p, s, m), s.commits[m.from := m.body.seal];
      && o.state == s.(commits := more, phase := if |more| >= p.quorum then Committed else CommitSent)
      && (|more| >= p.quorum ==> Finalises(p.cfg, o))
  {
  }

  lemma CanHear(w: World, net: Net, x: Address, m: Incoming, o: Outcome)
    requires x in net.members && Sent(m.from, m.body) in net.sent
    requires HasProposal(net.members[x].core) && !Panics(w.Params(x), net.members[x].core, m)
    requires Handles(w.Params(x), net.members[x].core, m, o)
    ensures CanAct(w, net, Act(x, Deliver(m), o))
  {
  }

  lemma HearPrepare(w: World, plan: Plan, net: Net, x: Address, heard: set<Address>, y: Address) returns (act: Act)
    requires IsPlan(w, plan) && x in plan.quorum && y in plan.quorum && y !in heard
    requires IsPreparing(w, plan, net, x, heard) && HasSent(net, y, Prepare(w.Here(), plan.Hash()))
    ensures act.a == x && IsWithin(plan, act) && CanAct(w, net, act)
    ensures IsPreparing(w, plan, AfterAct(net, act), x, heard + {y})
  {
    var m := Incoming(y, Prepare(w.Here(), plan.Hash()), []);
    var p, s := w.Params(x), net.members[x].core;
    assert Meets(w, plan, x, Honesty) && Meets(w, plan, y, Honesty) && Meets(w, plan, x, Sealing);
    act := Act(x, Deliver(m), HandlePrepare(p, s, m));
    CanHear(w, net, x, m, act.o);
    PrepareCounts(p, s, m, plan.header, plan.seal(x));
    var more := s.prepares[y := plan.Hash()];
    assert more.Keys == heard + {y} && |more| == |more.Keys|;
    FewBroadcasts(x, act.o.decisions);
    if s.phase == Prepared && |more| >= p.quorum {
      assert Output(act)[0] == Sent(x, Commit(w.Here(), plan.Hash(), plan.seal(x)));
      assert Output(act)[0] in AfterAct(net, act).sent;
    }
  }

  lemma HearCommit(w: World, plan: Plan, acts: seq<Act>, net: Net, x: Address, heard: set<Address>, y: Address)
    returns (act: Act)
    requires IsPlan(w, plan) && x in plan.quorum && y in plan.quorum && y !in heard
    requires IsCommitting(w, plan, acts, net, x, heard) && HasSent(net, y, Commit(w.Here(), plan.Hash(), plan.seal(y)))
    ensures act.a == x && IsWithin(plan, act) && CanAct(w, net, act)
    ensures IsCommitting(w, plan, acts + [act], AfterAct(net, act), x, heard + {y})
  {
    var m := Incoming(y, Commit(w.Here(), plan.Hash(), plan.seal(y)), []);
    var s := net.members[x].core;
    assert Meets(w, plan, x, Honesty) && Meets(w, plan, y, Honesty);
    act := Act(x, Deliver(m), HandleCommit(w.Params(x), s, m));
    CanHear(w, net, x, m, act.o);
    if s.phase == Committed {
      LateIsHeard(w, plan, acts, net, act, heard, y);
    } else {
      CommitIsAdded(w, plan, s, act.o, x, m);
      AddedIsHeard(w, plan, acts, net, act, heard, y);
    }
  }

  lemma LateIsHeard(w: World, plan: Plan, acts: seq<Act>, net: Net, act: Act, heard: set<Address>, y: Address)
    requires IsCommitting(w, plan, acts, net, act.a, heard) && |heard| >= Quorum(|w.validators|) && y !in heard
    requires act.e.Deliver? && act.o.state == net.members[act.a].core
    ensures IsCommitting(w, plan, acts + [act], AfterAct(net, act), act.a, heard + {y})
  {
    assert |heard + {y}| > |heard|;
    StillDecides(w, plan, acts, acts + [act], act.a);
  }

  lemma StillDecides(w: World, plan: Plan, acts: seq<Act>, more: seq<Act>, x: Address)
    requires acts <= more && Decides(w, plan, acts, x)
    ensures Decides(w, plan, more, x)
  {
    var d :| d in acts && IsDecision(w, plan, x, d);
    assert d in more;
  }

  lemma AddedIsHeard(w: World, plan: Plan, acts: seq<Act>, net: Net, act: Act, heard: set<Address>, y: Address)
    requires act.a in net.members && Holding(plan, net.members[act.a]) && act.e.Deliver?
    requires
      var s := net.members[act.a].core;
      var more := s.commits[y := plan.seal(y)];
      && s.commits.Keys == heard && AreSeals(plan, more)
      && act.o.state == s.(commits := more, phase := if |more| >= Quorum(|w.validators|) then Committed else CommitSent)
      && (|more| >= Quorum(|w.validators|) ==> Finalises(w.cfg(act.a), act.o))
    ensures IsCommitting(w, plan, acts + [act], AfterAct(net, act), act.a, heard + {y})
  {
    var more := act.o.state.commits;
    assert more.Keys == heard + {y} && |more| == |more.Keys|;
    assert |more| >= Quorum(|w.validators|) ==> IsDecision(w, plan, act.a, act);
    assert act in acts + [act];
  }

  /** What one more COMMIT does to a member that has voted. */
  lemma CommitIsAdded(w: World, plan: Plan, s: State, o: Outcome, x: Address, m: Incoming)
    requires IsPlan(w, plan) && x in plan.quorum && m.from in plan.quorum && m.from in w.validators
    requires m.body == Commit(w.Here(), plan.Hash(), plan.seal(m.from)) && s.phase == CommitSent
    requires s.proposal == Some(plan.header) && s.hash == plan.Hash() && AreSeals(plan, s.commits)
    requires o == HandleCommit(w.Params(x), s, m)
    ensures
      var more := s.commits[m.from := plan.seal(m.from)];
      && o.state == s.(commits := more, phase := if |more| >= Quorum(|w.validators|) then Committed else CommitSent)
      && AreSeals(plan, more) && (|more| >= Quorum(|w.validators|) ==> Finalises(w.cfg(x), o))
  {
    assert Meets(w, plan, x, Sealing) && Meets(w, plan, x, Finalising);
    CommitCounts(w.Params(x), s, m, plan.header);
  }

  // ----- One member hears everyone

  ghost predicate AllSaidPrepare(w: World, plan: Plan, net: Net) {
    forall y :: y in plan.quorum ==> HasSent(net, y, Prepare(w.Here(), plan.Hash()))
  }

  ghost predicate AllSaidCommit(w: World, plan: Plan, net: Net) {
    forall y :: y in plan.quorum ==> HasSent(net, y, Commit(w.Here(), plan.Hash(), plan.seal(y)))
  }

  lemma ContinuesFurther(w: World, plan: Plan, acts: seq<Act>, next: seq<Act>, more: seq<Act>, x: Address)
    requires Continues(w, plan, acts, next, x) && Continues(w, plan, next, more, x)
    ensures Continues(w, plan, acts, more, x)
  {
  }

  lemma NextPrepare(w: World, plan: Plan, acts: seq<Act>, x: Address, heard: set<Address>, y: Address)
    returns (next: seq<Act>)
    requires IsPlan(w, plan) && IsSchedule(w, plan, acts) && x in plan.quorum
    requires y in plan.quorum && y !in heard
    requires IsPreparing(w, plan, Play(w, acts), x, heard) && AllSaidPrepare(w, plan, Play(w, acts))
    ensures Continues(w, plan, acts, next, x) && IsPreparing(w, plan, Play(w, next), x, heard + {y})
    ensures AllSaidPrepare(w, plan, Play(w, next))
  {
    var act := HearPrepare(w, plan, Play(w, acts), x, heard, y);
    next := acts + [act];
    OneMore(w, plan, acts, act);
  }

  lemma NextCommit(w: World, plan: Plan, acts: seq<Act>, x: Address, heard: set<Address>, y: Address)
    returns (next: seq<Act>)
    requires IsPlan(w, plan) && IsSchedule(w, plan, acts) && x in plan.quorum
    requires y in plan.quorum && y !in heard
    requires IsCommitting(w, plan, acts, Play(w, acts), x, heard) && AllSaidCommit(w, plan, Play(w, acts))
    ensures Continues(w, plan, acts, next, x) && IsCommitting(w, plan, next, Play(w, next), x, heard + {y})
    ensures AllSaidCommit(w, plan, Play(w, next))
  {
    var act := HearCommit(w, plan, acts, Play(w, acts), x, heard, y);
    next := acts + [act];
    OneMore(w, plan, acts, act);
  }

  lemma {:induction false} HearPrepares(w: World, plan: Plan, acts: seq<Act>, x: Address, heard: set<Address>)
    returns (more: seq<Act>)
    requires IsPlan(w, plan) && IsSchedule(w, plan, acts) && x in plan.quorum && heard <= plan.quorum
    requires IsPreparing(w, plan, Play(w, acts), x, heard) && AllSaidPrepare(w, plan, Play(w, acts))
    ensures Continues(w, plan, acts, more, x) && IsPreparing(w, plan, Play(w, more), x, plan.quorum)
    decreases plan.quorum - heard
  {
    if heard == plan.quorum {
      more := acts;
    } else {
      var y :| y in plan.quorum && y !in heard;
      var heard' := heard + {y};
      assert heard' <= plan.quorum && plan.quorum - heard' < plan.quorum - heard;
      var next := NextPrepare(w, plan, acts, x, heard, y);
      more := HearPrepares(w, plan, next, x, heard');
      ContinuesFurther(w, plan, acts, next, more, x);
    }
  }

  lemma {:induction false} HearCommits(w: World, plan: Plan, acts: seq<Act>, x: Address, heard: set<Address>)
    returns (more: seq<Act>)
    requires IsPlan(w, plan) && IsSchedule(w, plan, acts) && x in plan.quorum && heard <= plan.quorum
    requires IsCommitting(w, plan, acts, Play(w, acts), x, heard) && AllSaidCommit(w, plan, Play(w, acts))
    ensures Continues(w, plan, acts, more, x) && IsCommitting(w, plan, more, Play(w, more), x, plan.quorum)
    decreases plan.quorum - heard
  {
    if heard == plan.quorum {
      more := acts;
    } else {
      var y :| y in plan.quorum && y !in heard;
      var heard' := heard + {y};
      assert heard' <= plan.quorum && plan.quorum - heard' < plan.quorum - heard;
      var next := NextCommit(w, plan, acts, x, heard, y);
      more := HearCommits(w, plan, next, x, heard');
      ContinuesFurther(w, plan, acts, next, more, x);
    }
  }

  // ----- Everyone in turn

  /** The members in `done` have the proposal, and the others have nothing yet. */
  ghost predicate Proposed(w: World, plan: Plan, net: Net, done: set<Address>) {
    && HasSent(net, plan.leader, plan.Offer(w.Here()))
    && forall x :: x in plan.quorum ==>
      if x in done then IsPreparing(w, plan, net, x, {})
      else x in net.members && net.members[x] == Member(INITIAL, false, false, false, false)
  }

  /** The members in `done` have heard every PREPARE, and the others none. */
  ghost predicate AllPrepare(w: World, plan: Plan, net: Net, done: set<Address>) {
    && AllSaidPrepare(w, plan, net)
    && forall x {:trigger PreparesIn(w, plan, net, done, x)} :: x in plan.quorum ==> PreparesIn(w, plan, net, done, x)
  }

  ghost predicate PreparesIn(w: World, plan: Plan, net: Net, done: set<Address>, x: Address) {
    IsPreparing(w, plan, net, x, if x in done then plan.quorum else {})
  }

  /** The members in `done` have heard every COMMIT, and the others none. */
  ghost predicate AllCommit(w: World, plan: Plan, acts: seq<Act>, net: Net, done: set<Address>) {
    && AllSaidCommit(w, plan, net)
    && forall x {:trigger CommitsIn(w, plan, acts, net, done, x)} ::
      x in plan.quorum ==> CommitsIn(w, plan, acts, net, done, x)
  }

  ghost predicate CommitsIn(w: World, plan: Plan, acts: seq<Act>, net: Net, done: set<Address>, x: Address) {
    IsCommitting(w, plan, acts, net, x, if x in done then plan.quorum else {})
  }

  lemma OthersPrepare(w: World, plan: Plan, net: Net, net': Net, x: Address, y: Address, heard: set<Address>)
    requires Only(net, net', x) && y != x && IsPreparing(w, plan, net, y, heard)
    ensures IsPreparing(w, plan, net', y, heard)
  {
  }

  lemma OthersCommit(w: World, plan: Plan, acts: seq<Act>, more: seq<Act>, x: Address, y: Address, heard: set<Address>)
    requires Continues(w, plan, acts, more, x) && y != x
    requires IsCommitting(w, plan, acts, Play(w, acts), y, heard)
    ensures IsCommitting(w, plan, more, Play(w, more), y, heard)
  {
    if Decides(w, plan, acts, y) {
      StillDecides(w, plan, acts, more, y);
    }
  }

  lemma ProposalIsMade(w: World, plan: Plan) returns (acts: seq<Act>)
    requires IsPlan(w, plan)
    ensures IsSchedule(w, plan, acts) && Proposed(w, plan, Play(w, acts), {plan.leader})
  {
    var x := plan.leader;
    var act := Act(x, Propose(plan.header, plan.payload, plan.rcc),
                   StartProposer(w.Params(x), INITIAL, plan.header, plan.payload, plan.rcc));
    assert forall y :: y in plan.quorum ==> Meets(w, plan, y, Honesty);
    assert forall y :: w.Honest(y) ==> y in Start(w).members;
    OneMore(w, plan, [], act);
    acts := [] + [act];
    LeaderProposes(w, plan, Start(w), act);
  }

  lemma LeaderProposes(w: World, plan: Plan, net: Net, act: Act)
    requires forall y :: y in plan.quorum ==>
      y in net.members && net.members[y] == Member(INITIAL, false, false, false, false)
    requires plan.leader in plan.quorum && act.a == plan.leader
    requires act.e == Propose(plan.header, plan.payload, plan.rcc)
    requires act.o == StartProposer(w.Params(act.a), INITIAL, plan.header, plan.payload, plan.rcc)
    ensures Proposed(w, plan, AfterAct(net, act), {plan.leader})
  {
    var net' := AfterAct(net, act);
    FewBroadcasts(act.a, act.o.decisions);
    assert Output(act)[0] == Sent(act.a, plan.Offer(w.Here())) && Output(act)[0] in net'.sent;
    assert Output(act)[1] == Sent(act.a, Prepare(w.Here(), plan.Hash())) && Output(act)[1] in net'.sent;
  }

  lemma {:induction false} AllTakeProposal(w: World, plan: Plan, acts: seq<Act>, done: set<Address>)
    returns (more: seq<Act>)
    requires IsPlan(w, plan) && IsSchedule(w, plan, acts) && done <= plan.quorum
    requires Proposed(w, plan, Play(w, acts), done)
    ensures IsSchedule(w, plan, more) && AllPrepare(w, plan, Play(w, more), {})
    decreases plan.quorum - done
  {
    if done == plan.quorum {
      more := acts;
    } else {
      var x :| x in plan.quorum && x !in done;
      var act := TakeProposal(w, plan, Play(w, acts), x);
      OneMore(w, plan, acts, act);
      var net, net' := Play(w, acts), Play(w, acts + [act]);
      forall y | y in done
        ensures IsPreparing(w, plan, net', y, {})
      {
        OthersPrepare(w, plan, net, net', x, y, {});
      }
      more := AllTakeProposal(w, plan, acts + [act], done + {x});
    }
  }

  lemma PreparesNext(w: World, plan: Plan, net: Net, net': Net, done: set<Address>, x: Address)
    requires AllPrepare(w, plan, net, done) && Only(net, net', x) && x in plan.quorum
    requires IsPreparing(w, plan, net', x, plan.quorum)
    ensures AllPrepare(w, plan, net', done + {x})
  {
    forall y | y in plan.quorum
      ensures PreparesIn(w, plan, net', done + {x}, y)
    {
      assert PreparesIn(w, plan, net, done, y);
      if y != x {
        OthersPrepare(w, plan, net, net', x, y, if y in done then plan.quorum else {});
      }
    }
  }

  lemma OneHearsPrepares(w: World, plan: Plan, acts: seq<Act>, done: set<Address>, x: Address) returns (next: seq<Act>)
    requires IsPlan(w, plan) && IsSchedule(w, plan, acts) && x in plan.quorum && x !in done
    requires AllPrepare(w, plan, Play(w, acts), done)
    ensures IsSchedule(w, plan, next) && AllPrepare(w, plan, Play(w, next), done + {x})
  {
    assert PreparesIn(w, plan, Play(w, acts), done, x);
    next := HearPrepares(w, plan, acts, x, {});
    PreparesNext(w, plan, Play(w, acts), Play(w, next), done, x);
  }

  lemma {:induction false} AllHearPrepares(w: World, plan: Plan, acts: seq<Act>, done: set<Address>)
    returns (more: seq<Act>)
    requires IsPlan(w, plan) && IsSchedule(w, plan, acts) && done <= plan.quorum
    requires AllPrepare(w, plan, Play(w, acts), done)
    ensures IsSchedule(w, plan, more) && AllPrepare(w, plan, Play(w, more), plan.quorum)
    decreases plan.quorum - done
  {
    if done == plan.quorum {
      more := acts;
    } else {
      var x :| x in plan.quorum && x !in done;
      var next := OneHearsPrepares(w, plan, acts, done, x);
      more := AllHearPrepares(w, plan, next, done + {x});
    }
  }

  lemma OneHearsCommits(w: World, plan: Plan, acts: seq<Act>, done: set<Address>, x: Address) returns (next: seq<Act>)
    requires IsPlan(w, plan) && IsSchedule(w, plan, acts) && x in plan.quorum && x !in done
    requires AllCommit(w, plan, acts, Play(w, acts), done)
    ensures Continues(w, plan, acts, next, x) && AllCommit(w, plan, next, Play(w, next), done + {x})
  {
    assert CommitsIn(w, plan, acts, Play(w, acts), done, x);
    next := HearCommits(w, plan, acts, x, {});
    forall y | y in plan.quorum
      ensures CommitsIn(w, plan, next, Play(w, next), done + {x}, y)
    {
      assert CommitsIn(w, plan, acts, Play(w, acts), done, y);
      if y != x {
        OthersCommit(w, plan, acts, next, x, y, if y in done then plan.quorum else {});
      }
    }
  }

  lemma {:induction false} AllHearCommits(w: World, plan: Plan, acts: seq<Act>, done: set<Address>)
    returns (more: seq<Act>)
    requires IsPlan(w, plan) && IsSchedule(w, plan, acts) && done <= plan.quorum
    requires AllCommit(w, plan, acts, Play(w, acts), done)
    ensures IsSchedule(w, plan, more) && AllCommit(w, plan, more, Play(w, more), plan.quorum)
    ensures forall m :: m in Play(w, acts).sent ==> m in Play(w, more).sent
    decreases plan.quorum - done
  {
    if done == plan.quorum {
      more := acts;
    } else {
      var x :| x in plan.quorum && x !in done;
      var next := OneHearsCommits(w, plan, acts, done, x);
      more := AllHearCommits(w, plan, next, done + {x});
    }
  }

  /** The member has broadcast PREPARE and COMMIT, and committed the block. */
  ghost predicate IsThrough(w: World, plan: Plan, acts: seq<Act>, x: Address) {
    && HasSent(Play(w, acts), x, Prepare(w.Here(), plan.Hash()))
    && HasSent(Play(w, acts), x, Commit(w.Here(), plan.Hash(), plan.seal(x)))
    && Decides(w, plan, acts, x)
  }

  lemma PreparedIsSent(w: World, plan: Plan, acts: seq<Act>, x: Address)
    requires |plan.quorum| >= Quorum(|w.validators|) && IsPreparing(w, plan, Play(w, acts), x, plan.quorum)
    ensures HasSent(Play(w, acts), x, Prepare(w.Here(), plan.Hash()))
    ensures HasSent(Play(w, acts), x, Commit(w.Here(), plan.Hash(), plan.seal(x)))
    ensures CommitsIn(w, plan, acts, Play(w, acts), {}, x)
  {
  }

  lemma PreparedAreSent(w: World, plan: Plan, acts: seq<Act>)
    requires IsPlan(w, plan) && AllPrepare(w, plan, Play(w, acts), plan.quorum)
    ensures AllCommit(w, plan, acts, Play(w, acts), {}) && AllSaidPrepare(w, plan, Play(w, acts))
  {
    forall x | x in plan.quorum
      ensures HasSent(Play(w, acts), x, Prepare(w.Here(), plan.Hash()))
      ensures HasSent(Play(w, acts), x, Commit(w.Here(), plan.Hash(), plan.seal(x)))
      ensures CommitsIn(w, plan, acts, Play(w, acts), {}, x)
    {
      assert PreparesIn(w, plan, Play(w, acts), plan.quorum, x);
      PreparedIsSent(w, plan, acts, x);
    }
  }

  lemma CommittedAreThrough(w: World, plan: Plan, acts: seq<Act>, x: Address)
    requires IsPlan(w, plan) && AllCommit(w, plan, acts, Play(w, acts), plan.quorum)
    requires AllSaidPrepare(w, plan, Play(w, acts)) && x in plan.quorum
    ensures IsThrough(w, plan, acts, x)
  {
    assert CommitsIn(w, plan, acts, Play(w, acts), plan.quorum, x);
  }

  lemma ViewPrepares(w: World, plan: Plan) returns (acts: seq<Act>)
    requires IsPlan(w, plan)
    ensures IsSchedule(w, plan, acts) && AllPrepare(w, plan, Play(w, acts), plan.quorum)
  {
    acts := ProposalIsMade(w, plan);
    acts := AllTakeProposal(w, plan, acts, {plan.leader});
    acts := AllHearPrepares(w, plan, acts, {});
  }

  /** A view can decide: for a good proposal and an honest quorum that includes its proposer, there is
      a run, with the quorum's messages alone, in which every member broadcasts PREPARE and COMMIT
      and commits the block. */
  lemma ViewDecides(w: World, plan: Plan) returns (acts: seq<Act>)
    requires IsPlan(w, plan)
    ensures Legal(w, acts) && Within(plan, acts) && forall x :: x in plan.quorum ==> IsThrough(w, plan, acts, x)
  {
    acts := ViewPrepares(w, plan);
    PreparedAreSent(w, plan, acts);
    acts := AllHearCommits(w, plan, acts, {});
    assert Has(w, plan, acts, Lawful) && Has(w, plan, acts, Contained);
    forall x | x in plan.quorum
      ensures IsThrough(w, plan, acts, x)
    {
      CommittedAreThrough(w, plan, acts, x);
    }
  }
}

/**
 From one round to the next without faulty validators: a block that a quorum committed to is the
 one the next round starts with.
 */
module QbftCarryOver {
  import opened Primitives
  import opened Turns
  import opened Qbft
  import opened QbftNetwork
  import opened QbftRounds

  /** The designated proposer of a view: validators take turns in address order. */
  function Leader(validators: set<Address>, sequence: nat, round: nat): Address
    requires validators != {}
  {
    TurnAt(validators, sequence + round)
  }

  /** The leader is the validator whose rank is sequence plus round, modulo their count. */
  lemma LeaderIff(validators: set<Address>, sequence: nat, round: nat, a: Address)
    requires validators != {}
    ensures Leader(validators, sequence, round) == a <==> IsNext(validators, sequence + round, a)
  {
    TurnIff(validators, sequence + round, a);
  }

  /** Among any |validators| consecutive rounds every validator leads exactly one. */
  lemma EveryoneLeadsOnce(validators: set<Address>, sequence: nat, round: nat, a: Address) returns (r: nat)
    requires a in validators
    ensures round <= r < round + |validators| && Leader(validators, sequence, r) == a
    ensures forall j :: round <= j < round + |validators| && Leader(validators, sequence, j) == a ==> j == r
  {
    var m := OneTurnEach(validators, sequence + round, a);
    r := m - sequence;
    forall j: nat | round <= j < round + |validators| && Leader(validators, sequence, j) == a
      ensures j == r
    {
      assert TurnAt(validators, sequence + j) == a;
    }
  }

  /** Only the designated proposer proposes. */
  ghost predicate IsLed(w: World, acts: seq<Act>)
    requires w.validators != {}
  {
    forall k :: 0 <= k < |acts| ==> acts[k].e.Propose? ==> acts[k].a == Leader(w.validators, w.sequence, w.round)
  }

  // ----- One proposal

  ghost predicate IsSource(leader: Address, s: State, m: Sent) {
    m.from == leader && m.body.Proposal? && m.body.header == s.proposal && m.body.payload == s.payload
  }

  /** Every proposal a core holds was broadcast by the leader. */
  ghost predicate Sourced(net: Net, leader: Address) {
    && (forall i :: 0 <= i < |net.sent| && net.sent[i].body.Proposal? ==> net.sent[i].from == leader)
    && (forall a :: a in net.members && net.members[a].core.proposal.Some? ==>
          HasSource(net.members[a].core, net.sent, leader))
  }

  ghost predicate HasSource(s: State, sent: seq<Sent>, leader: Address) {
    exists i :: 0 <= i < |sent| && IsSource(leader, s, sent[i])
  }

  lemma SourceStays(s: State, s': State, sent: seq<Sent>, more: seq<Sent>, leader: Address)
    requires HasSource(s, sent, leader) && s'.proposal == s.proposal && s'.payload == s.payload
    ensures HasSource(s', sent + more, leader)
  {
    var i :| 0 <= i < |sent| && IsSource(leader, s, sent[i]);
    assert IsSource(leader, s', (sent + more)[i]);
  }

  /** Where the proposal of a core comes from: it stays, or it is the delivered or the own one. */
  lemma ProposalComesFrom(w: World, n: Member, sent: seq<Sent>, act: Act)
    requires w.byz == {} && Fit(w.Params(act.a), n) && Allowed(w, n, sent, act)
    ensures
      var s, s' := n.core, act.o.state;
      || (s'.proposal == s.proposal && s'.payload == s.payload)
      || act.e.Propose?
      || (exists x :: x in sent && x.body.Proposal? && x.body.header == s'.proposal && x.body.payload == s'.payload)
  {
    if act.e.Replay? || act.e.Deliver? {
      var m := act.e.m;
      if m.body.Proposal? && act.o.state.proposal != n.core.proposal {
        assert Sent(m.from, m.body) in sent;
      }
    }
  }

  lemma ProposalsInOutput(w: World, n: Member, sent: seq<Sent>, act: Act)
    requires Fit(w.Params(act.a), n) && Allowed(w, n, sent, act)
    ensures forall i :: 0 <= i < |Output(act)| && Output(act)[i].body.Proposal? ==> act.e.Propose?
    ensures forall i :: 0 <= i < |Output(act)| ==> Output(act)[i].from == act.a
    ensures act.e.Propose? ==> |Output(act)| > 0 && IsSource(act.a, act.o.state, Output(act)[0])
  {
    FewBroadcasts(act.a, act.o.decisions);
  }

  lemma ActKeepsSource(w: World, net: Net, act: Act, leader: Address)
    requires w.byz == {} && Inv(w, net) && CanAct(w, net, act) && Sourced(net, leader)
    requires act.e.Propose? ==> act.a == leader
    ensures Sourced(AfterAct(net, act), leader)
  {
    var n, sent, out, net' := net.members[act.a], net.sent, Output(act), AfterAct(net, act);
    assert Holds(w, act.a, n, sent);
    ProposalComesFrom(w, n, sent, act);
    ProposalsInOutput(w, n, sent, act);
    forall a | a in net'.members && net'.members[a].core.proposal.Some?
      ensures HasSource(net'.members[a].core, net'.sent, leader)
    {
      var s' := net'.members[a].core;
      if a != act.a || (s'.proposal == n.core.proposal && s'.payload == n.core.payload) {
        SourceStays(net.members[a].core, s', sent, out, leader);
      } else if act.e.Propose? {
        assert IsSource(leader, s', net'.sent[|sent|]);
      } else {
        var x :| x in sent && x.body.Proposal? && x.body.header == s'.proposal && x.body.payload == s'.payload;
        assert IsSource(leader, s', x);
        SourceStays(s', s', sent, out, leader);
      }
    }
  }

  lemma {:induction false} RunKeepsSource(w: World, acts: seq<Act>)
    requires w.byz == {} && w.validators != {} && Legal(w, acts) && IsLed(w, acts)
    ensures Sourced(Play(w, acts), Leader(w.validators, w.sequence, w.round))
  {
    if acts != [] {
      var n := |acts| - 1;
      LegalFront(w, acts, n);
      RunKeepsSource(w, acts[..n]);
      RunKeepsInv(w, acts[..n]);
      ActKeepsSource(w, Play(w, acts[..n]), acts[n], Leader(w.validators, w.sequence, w.round));
    }
  }

  /** All cores that hold a proposal hold the same one. */
  lemma OneProposal(w: World, net: Net, leader: Address, a: Address, b: Address)
    requires Inv(w, net) && Sourced(net, leader) && a in net.members && b in net.members
    requires net.members[a].core.proposal.Some? && net.members[b].core.proposal.Some?
    ensures net.members[a].core.proposal == net.members[b].core.proposal
    ensures net.members[a].core.payload == net.members[b].core.payload
  {
    var i :| 0 <= i < |net.sent| && IsSource(leader, net.members[a].core, net.sent[i]);
    var j :| 0 <= j < |net.sent| && IsSource(leader, net.members[b].core, net.sent[j]);
    assert Holds(w, leader, net.members[leader], net.sent);
  }

  // ----- Round changes that were heard

  /** The noted round changes to the next round were sent by the validators they name. */
  ghost predicate Heard(w: World, changes: map<Address, Noted>, sent: seq<Sent>) {
    forall x :: x in changes ==> IsHeard(w, x, changes[x].rc, sent)
  }

  ghost predicate IsHeard(w: World, x: Address, rc: RoundChange, sent: seq<Sent>) {
    && x in w.validators
    && rc.view.sequence == w.sequence
    && (w.Honest(x) && rc.view == w.Next() ==> Sent(x, Change(rc)) in sent)
  }

  /** A core at any round of the same sequence hears only what was sent. */
  lemma HearsOnlySent(w: World, p: Params, s: State, m: Incoming, o: Outcome, sent: seq<Sent>)
    requires p.sequence == w.sequence && p.validators == w.validators
    requires Deliverable(w, sent, m) && HasProposal(s) && !Panics(p, s, m) && Handles(p, s, m, o)
    requires Heard(w, s.changes, sent)
    ensures Heard(w, o.state.changes, sent)
  {
  }

  lemma AimingAreValidators(w: World, changes: map<Address, Noted>, sent: seq<Sent>)
    requires Heard(w, changes, sent)
    ensures Aiming(changes, w.round + 1) <= w.validators
  {
    forall x | x in Aiming(changes, w.round + 1)
      ensures x in w.validators
    {
      assert IsHeard(w, x, changes[x].rc, sent);
    }
  }

  /** Votes for `h` from a quorum. */
  ghost predicate HaveVoted(w: World, voters: set<Address>, h: Hash, sent: seq<Sent>) {
    && voters <= w.validators && |voters| >= Quorum(|w.validators|)
    && forall x :: x in voters ==> HasVoted(w, x, h, sent)
  }

  ghost predicate HasVoted(w: World, x: Address, h: Hash, sent: seq<Sent>) {
    exists seal :: Sent(x, Commit(w.Here(), h, seal)) in sent
  }

  /** A round change by a validator reports the block it voted for. */
  lemma VoterReports(w: World, net: Net, x: Address, h: Hash, seal: seq<byte>, rc: RoundChange)
    requires Inv(w, net) && w.Honest(x)
    requires Sent(x, Commit(w.Here(), h, seal)) in net.sent && Sent(x, Change(rc)) in net.sent
    ensures Reports(w.Params(x), net.members[x].core, rc) && HashOf(net.members[x].core.proposal.value) == h
  {
    assert Holds(w, x, net.members[x], net.sent);
  }

  lemma BlockIsReported(w: World, net: Net, x: Address, rc: RoundChange)
    requires Inv(w, net) && w.Honest(x) && Sent(x, Change(rc)) in net.sent && rc.block != NoBlock
    ensures Reports(w.Params(x), net.members[x].core, rc)
  {
    assert Holds(w, x, net.members[x], net.sent);
  }

  /** Some validator that asks for the next round voted for `h`, and reports that block. */
  lemma SomeVoterAsks(w: World, net: Net, voters: set<Address>, h: Hash, changes: map<Address, Noted>)
    returns (z: Address)
    requires FewFaulty(w) && Inv(w, net) && HaveVoted(w, voters, h, net.sent) && Heard(w, changes, net.sent)
    requires |Aiming(changes, w.round + 1)| >= Quorum(|w.validators|)
    ensures z in Aiming(changes, w.round + 1) && z in net.members
    ensures Reports(w.Params(z), net.members[z].core, changes[z].rc) && HashOf(net.members[z].core.proposal.value) == h
  {
    var aiming := Aiming(changes, w.round + 1);
    AimingAreValidators(w, changes, net.sent);
    z := QuorumsShareHonest(w, voters, aiming);
    AskingIsSent(w, changes, net.sent, z);
    VoterReports(w, net, z, h, SealOf(w, z, h, net.sent), changes[z].rc);
  }

  ghost function SealOf(w: World, x: Address, h: Hash, sent: seq<Sent>): (seal: seq<byte>)
    requires HasVoted(w, x, h, sent)
    ensures Sent(x, Commit(w.Here(), h, seal)) in sent
  {
    var seal :| Sent(x, Commit(w.Here(), h, seal)) in sent;
    seal
  }

  lemma AskingIsSent(w: World, changes: map<Address, Noted>, sent: seq<Sent>, x: Address)
    requires Heard(w, changes, sent) && x in Aiming(changes, w.round + 1) && w.Honest(x)
    ensures Sent(x, Change(changes[x].rc)) in sent
  {
    assert IsHeard(w, x, changes[x].rc, sent);
  }

  lemma SomeIsPicked(changes: map<Address, Noted>, round: nat, d: Decision, z: Address) returns (a: Address)
    requires Starts(changes, round, d) && z in Aiming(changes, round) && changes[z].rc.block != NoBlock
    ensures a in Aiming(changes, round) && changes[a].rc.block != NoBlock && Carries(changes[a].rc, d)
  {
    a :| a in Aiming(changes, round) && IsHighest(changes, round, a) && Carries(changes[a].rc, d);
  }

  /** When some round change has a block, the decision takes its block from one that was reported. */
  lemma DecisionTakesReport(w: World, net: Net, changes: map<Address, Noted>, d: Decision, z: Address)
    returns (a: Address)
    requires w.byz == {} && Inv(w, net) && Heard(w, changes, net.sent) && Starts(changes, w.round + 1, d)
    requires z in Aiming(changes, w.round + 1) && changes[z].rc.block != NoBlock
    ensures a in net.members && net.members[a].core.proposal.Some?
    ensures d.prepared == net.members[a].core.proposal && d.preparedPayload == net.members[a].core.payload
  {
    a := SomeIsPicked(changes, w.round + 1, d, z);
    assert IsHeard(w, a, changes[a].rc, net.sent);
    BlockIsReported(w, net, a, changes[a].rc);
  }

  /** Any decision to start the next round, made from round changes that were sent, carries the
      block a quorum voted for, with the payload it was proposed with. */
  lemma DecisionCarriesBlock(w: World, net: Net, voters: set<Address>, h: Hash, leader: Address,
                             changes: map<Address, Noted>, d: Decision)
    requires FewFaulty(w) && w.byz == {} && Inv(w, net) && Sourced(net, leader)
    requires HaveVoted(w, voters, h, net.sent) && Heard(w, changes, net.sent)
    requires Starts(changes, w.round + 1, d) && |Aiming(changes, w.round + 1)| >= Quorum(|w.validators|)
    ensures d.prepared.Some? && HashOf(d.prepared.value) == h
    ensures exists rcc :: Sent(leader, Proposal(w.Here(), d.prepared, d.preparedPayload, rcc)) in net.sent
  {
    var z := SomeVoterAsks(w, net, voters, h, changes);
    var a := DecisionTakesReport(w, net, changes, d, z);
    OneProposal(w, net, leader, a, z);
    SourceIsSent(w, net, leader, a);
  }

  lemma SourceIsSent(w: World, net: Net, leader: Address, a: Address)
    requires Inv(w, net) && Sourced(net, leader) && a in net.members && net.members[a].core.proposal.Some?
    ensures exists rcc ::
      Sent(leader, Proposal(w.Here(), net.members[a].core.proposal, net.members[a].core.payload, rcc)) in net.sent
  {
    var i :| 0 <= i < |net.sent| && IsSource(leader, net.members[a].core, net.sent[i]);
    assert Holds(w, leader, net.members[leader], net.sent);
    assert net.sent[i] ==
      Sent(leader, Proposal(w.Here(), net.members[a].core.proposal, net.members[a].core.payload, net.sent[i].body.rcc));
  }

  // ----- Over a run

  lemma ActHears(w: World, net: Net, act: Act)
    requires Inv(w, net) && CanAct(w, net, act)
    requires forall a :: a in net.members ==> Heard(w, net.members[a].core.changes, net.sent)
    ensures Heard(w, act.o.state.changes, net.sent)
  {
    assert Holds(w, act.a, net.members[act.a], net.sent);
    if act.e.Replay? || act.e.Deliver? {
      HearsOnlySent(w, w.Params(act.a), net.members[act.a].core, act.e.m, act.o, net.sent);
    }
  }

  lemma {:induction false} RunHears(w: World, acts: seq<Act>, a: Address)
    requires Legal(w, acts) && a in Play(w, acts).members
    ensures Heard(w, Play(w, acts).members[a].core.changes, Play(w, acts).sent)
  {
    if acts != [] {
      var n := |acts| - 1;
      LegalFront(w, acts, n);
      var net := Play(w, acts[..n]);
      RunKeepsInv(w, acts[..n]);
      forall b | b in net.members
        ensures Heard(w, net.members[b].core.changes, net.sent)
      {
        RunHears(w, acts[..n], b);
      }
      ActHears(w, net, acts[n]);
    }
  }

  lemma OnlyChangesStart(w: World, n: Member, sent: seq<Sent>, act: Act, d: Decision)
    requires Fit(w.Params(act.a), n) && Allowed(w, n, sent, act) && d in act.o.decisions && d.StartRound?
    ensures Starts(act.o.state.changes, d.round, d) && |Aiming(act.o.state.changes, d.round)| >= Quorum(|w.validators|)
  {
    if act.e.Replay? || act.e.Deliver? {
      StartComesFromChange(w.Params(act.a), n.core, act.e.m, act.o, d);
    }
  }

  /** What a decision in the run was made from. */
  lemma DecisionIsHeard(w: World, acts: seq<Act>, k: nat, d: Decision)
    requires Legal(w, acts) && k < |acts| && d in acts[k].o.decisions && d.StartRound?
    ensures Heard(w, acts[k].o.state.changes, Play(w, acts).sent)
    ensures Starts(acts[k].o.state.changes, d.round, d)
    ensures |Aiming(acts[k].o.state.changes, d.round)| >= Quorum(|w.validators|)
  {
    SentGrows(w, acts, k);
    LegalFront(w, acts, k);
    var net := Play(w, acts[..k]);
    RunKeepsInv(w, acts[..k]);
    forall b | b in net.members
      ensures Heard(w, net.members[b].core.changes, net.sent)
    {
      RunHears(w, acts[..k], b);
    }
    ActHears(w, net, acts[k]);
    HeardStays(w, acts[k].o.state.changes, net.sent, Play(w, acts).sent);
    assert Holds(w, acts[k].a, net.members[acts[k].a], net.sent);
    OnlyChangesStart(w, net.members[acts[k].a], net.sent, acts[k], d);
  }

  lemma HeardStays(w: World, changes: map<Address, Noted>, sent: seq<Sent>, more: seq<Sent>)
    requires Heard(w, changes, sent) && sent <= more
    ensures Heard(w, changes, more)
  {
    forall x | x in changes
      ensures IsHeard(w, x, changes[x].rc, more)
    {
      assert IsHeard(w, x, changes[x].rc, sent);
    }
  }

  /** One-round carry-over: with no faulty validators and one proposer, if a quorum broadcast
      COMMIT for a block, every decision to start the next round carries that block and the payload
      it was proposed with. */
  lemma CarryOver(w: World, acts: seq<Act>, voters: set<Address>, h: Hash, k: nat, d: Decision)
    requires w.byz == {} && w.validators != {} && Legal(w, acts) && IsLed(w, acts)
    requires HaveVoted(w, voters, h, Play(w, acts).sent)
    requires k < |acts| && d in acts[k].o.decisions && d.StartRound? && d.round == w.round + 1
    ensures d.prepared.Some? && HashOf(d.prepared.value) == h
    ensures exists rcc ::
      Sent(Leader(w.validators, w.sequence, w.round), Proposal(w.Here(), d.prepared, d.preparedPayload, rcc))
        in Play(w, acts).sent
  {
    RunKeepsInv(w, acts);
    RunKeepsSource(w, acts);
    DecisionIsHeard(w, acts, k, d);
    DecisionCarriesBlock(w, Play(w, acts), voters, h, Leader(w.validators, w.sequence, w.round),
                         acts[k].o.state.changes, d);
  }

  // ----- At any other core of the sequence

  /** Every message of the life could be delivered. */
  ghost predicate AllDeliverable(w: World, sent: seq<Sent>, ins: seq<Input>) {
    forall i :: i in ins && i.Message? ==> Deliverable(w, sent, i.m)
  }

  lemma {:induction false} LifeHears(
      w: World, sent: seq<Sent>, p: Params, ins: seq<Input>, os: seq<Outcome>, k: nat)
    requires p.sequence == w.sequence && p.validators == w.validators
    requires IsLife(p, ins, os) && AllDeliverable(w, sent, ins) && k <= |os|
    ensures Heard(w, Before(os, k).changes, sent)
  {
    if k > 0 {
      LifeHears(w, sent, p, ins, os, k - 1);
      assert IsTaken(p, ins, os, k - 1);
      if os[k - 1].state.changes != Before(os, k - 1).changes {
        OnlyChangesAreNoted(p, Before(os, k - 1), ins[k - 1], os[k - 1]);
        assert ins[k - 1] in ins;
        HearsOnlySent(w, p, Before(os, k - 1), ins[k - 1].m, os[k - 1], sent);
      }
    }
  }

  /** What a decision in the life was made from. */
  lemma LifeDecides(w: World, sent: seq<Sent>, p: Params, ins: seq<Input>, os: seq<Outcome>, k: nat, d: Decision)
    requires p.sequence == w.sequence && p.validators == w.validators
    requires IsLife(p, ins, os) && AllDeliverable(w, sent, ins)
    requires k < |os| && d in os[k].decisions && d.StartRound?
    ensures Heard(w, os[k].state.changes, sent)
    ensures Starts(os[k].state.changes, d.round, d) && |Aiming(os[k].state.changes, d.round)| >= p.quorum
  {
    LifeHears(w, sent, p, ins, os, k + 1);
    assert IsTaken(p, ins, os, k);
    StartNeedsMessage(p, Before(os, k), ins[k], os[k], d);
  }

  /** The same over the whole life of a core at any round of the sequence, fed with messages the
      network could deliver: each of its decisions to start the next round carries the block. */
  lemma CarryOverAnywhere(w: World, acts: seq<Act>, voters: set<Address>, h: Hash,
                          p: Params, ins: seq<Input>, os: seq<Outcome>, k: nat, d: Decision)
    requires w.byz == {} && w.validators != {} && Legal(w, acts) && IsLed(w, acts)
    requires HaveVoted(w, voters, h, Play(w, acts).sent)
    requires p.sequence == w.sequence && p.validators == w.validators && p.quorum == Quorum(|w.validators|)
    requires IsLife(p, ins, os) && AllDeliverable(w, Play(w, acts).sent, ins)
    requires k < |os| && d in os[k].decisions && d.StartRound? && d.round == w.round + 1
    ensures d.prepared.Some? && HashOf(d.prepared.value) == h
    ensures exists rcc ::
      Sent(Leader(w.validators, w.sequence, w.round), Proposal(w.Here(), d.prepared, d.preparedPayload, rcc))
        in Play(w, acts).sent
  {
    RunKeepsInv(w, acts);
    RunKeepsSource(w, acts);
    LifeDecides(w, Play(w, acts).sent, p, ins, os, k, d);
    DecisionCarriesBlock(w, Play(w, acts), voters, h, Leader(w.validators, w.sequence, w.round),
                         os[k].state.changes, d);
  }
}

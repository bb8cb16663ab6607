/**
 What one core hands to the cores of later rounds: round-change certificates, which they accept,
 and the backlog of early proposals.
 */
module QbftRounds {
  import opened Primitives
  import opened Qbft

  /** The sender of a round change is the signer its signature recovers to. */
  predicate Authentic(p: Params, m: Incoming) {
    m.body.Change? ==> p.cfg.roundChangeSigVerifier(Some(m.body.rc), m.sig) == Some(m.from)
  }

  datatype Input = Message(m: Incoming) | Proposing(header: Header, payload: seq<byte>, rcc: seq<Signed>) | Timer

  ghost predicate Takes(p: Params, s: State, i: Input, o: Outcome) {
    match i
    case Message(m) => Authentic(p, m) && HasProposal(s) && !Panics(p, s, m) && Handles(p, s, m, o)
    case Proposing(header, payload, rcc) => o == StartProposer(p, s, header, payload, rcc)
    case Timer => o == Timeout(p, s)
  }

  function Before(os: seq<Outcome>, k: nat): State
    requires k <= |os|
  {
    if k == 0 then INITIAL else os[k - 1].state
  }

  /** A core's life: any inputs in any order, with the outcome of each. */
  ghost predicate IsLife(p: Params, ins: seq<Input>, os: seq<Outcome>) {
    |ins| == |os| && forall k :: 0 <= k < |ins| ==> IsTaken(p, ins, os, k)
  }

  ghost predicate IsTaken(p: Params, ins: seq<Input>, os: seq<Outcome>, k: nat)
    requires k < |ins| == |os|
  {
    Takes(p, Before(os, k), ins[k], os[k])
  }

  /** Every noted round change is a validator's own, to a later round of the sequence. */
  ghost predicate NotedWell(p: Params, changes: map<Address, Noted>) {
    forall x :: x in changes ==> IsNotedWell(p, x, changes[x])
  }

  predicate IsNotedWell(p: Params, x: Address, n: Noted) {
    && x in p.validators
    && n.rc.view.sequence == p.sequence && n.rc.view.round > p.round
    && p.cfg.roundChangeSigVerifier(Some(n.rc), n.sig) == Some(x)
  }

  lemma NoteIsWell(p: Params, s: State, m: Incoming)
    requires NotedWell(p, s.changes) && m.body.Change? && m.from in p.validators && Authentic(p, m)
    ensures NotedWell(p, NoteChange(p, s, m).changes)
  {
  }

  lemma OnlyChangesAreNoted(p: Params, s: State, i: Input, o: Outcome)
    requires Takes(p, s, i, o) && o.state.changes != s.changes
    ensures i.Message? && i.m.body.Change? && i.m.from in p.validators && Authentic(p, i.m)
    ensures o.state == NoteChange(p, s, i.m)
  {
  }

  lemma InputKeepsNotes(p: Params, s: State, i: Input, o: Outcome)
    requires NotedWell(p, s.changes) && Takes(p, s, i, o)
    ensures NotedWell(p, o.state.changes)
  {
    if o.state.changes != s.changes {
      OnlyChangesAreNoted(p, s, i, o);
      NoteIsWell(p, s, i.m);
    }
  }

  lemma {:induction false} LifeKeepsNotes(p: Params, ins: seq<Input>, os: seq<Outcome>, k: nat)
    requires IsLife(p, ins, os) && k <= |os|
    ensures NotedWell(p, Before(os, k).changes)
  {
    if k > 0 {
      LifeKeepsNotes(p, ins, os, k - 1);
      assert IsTaken(p, ins, os, k - 1);
      InputKeepsNotes(p, Before(os, k - 1), ins[k - 1], os[k - 1]);
    }
  }

  /** Cores of the same sequence with the same validators, quorum and signature check. */
  ghost predicate IsPeer(p: Params, p': Params) {
    && p'.sequence == p.sequence && p'.validators == p.validators && p'.quorum == p.quorum
    && p'.cfg.roundChangeSigVerifier == p.cfg.roundChangeSigVerifier
  }

  /** Everyone whose round change went into the certificate counts as a signer of it. */
  lemma AimingAreChangers(p: Params, p': Params, changes: map<Address, Noted>, rcc: seq<Signed>, order: seq<Address>)
    requires IsPeer(p, p') && NotedWell(p, changes) && Certifies(changes, p'.round, rcc, order)
    ensures Aiming(changes, p'.round) <= Changers(p', p'.Here(), rcc)
  {
    forall a | a in Aiming(changes, p'.round)
      ensures a in Changers(p', p'.Here(), rcc)
    {
      assert a in order;
      var i :| 0 <= i < |order| && order[i] == a;
      assert IsNotedWell(p, a, changes[a]);
      assert IsChangeTo(p', p'.Here(), rcc[i]);
    }
  }

  /** A decision made from well noted round changes carries a certificate for its round. */
  lemma StartIsCertified(p: Params, p': Params, changes: map<Address, Noted>, d: Decision)
    requires IsPeer(p, p') && NotedWell(p, changes) && Starts(changes, p'.round, d)
    requires |Aiming(changes, p'.round)| >= p.quorum
    ensures IsCertificate(p', d.rcc)
  {
    var order :| Certifies(changes, p'.round, d.rcc, order);
    AimingAreChangers(p, p', changes, d.rcc, order);
    SubsetIsNoLarger(Aiming(changes, p'.round), Changers(p', p'.Here(), d.rcc));
  }

  lemma StartNeedsMessage(p: Params, s: State, i: Input, o: Outcome, d: Decision)
    requires Takes(p, s, i, o) && d in o.decisions && d.StartRound?
    ensures d.round > p.round && Starts(o.state.changes, d.round, d) && |Aiming(o.state.changes, d.round)| >= p.quorum
  {
    if i.Message? {
      StartComesFromChange(p, s, i.m, o, d);
    }
  }

  /** Whatever a core has been through, a decision to start a round is for a later round, and its
      certificate is accepted by every core of that round. */
  lemma CertificateIsAccepted(p: Params, ins: seq<Input>, os: seq<Outcome>, k: nat, d: Decision, p': Params)
    requires IsLife(p, ins, os) && k < |os| && d in os[k].decisions && d.StartRound?
    requires IsPeer(p, p') && p'.round == d.round
    ensures d.round > p.round && IsCertificate(p', d.rcc)
  {
    LifeKeepsNotes(p, ins, os, k + 1);
    assert IsTaken(p, ins, os, k);
    StartNeedsMessage(p, Before(os, k), ins[k], os[k], d);
    StartIsCertified(p, p', os[k].state.changes, d);
  }

  /** So a proposal that carries it is accepted at the start of that round, if the header is good. */
  lemma CertifiedProposalIsAccepted(
      p: Params, ins: seq<Input>, os: seq<Outcome>, k: nat, d: Decision, p': Params, m: Incoming)
    requires IsLife(p, ins, os) && k < |os| && d in os[k].decisions && d.StartRound?
    requires IsPeer(p, p') && p'.round == d.round && m.from in p.validators
    requires m.body.Proposal? && m.body.view == p'.Here() && m.body.rcc == d.rcc
    requires m.body.header.Some? && p'.cfg.proposalVerifier(m.body.header.value)
    ensures forall o :: Handles(p', INITIAL, m, o) ==>
      && o.state.phase == Prepared && o.state.proposal == m.body.header
      && o.decisions == [Broadcast(Prepare(p'.Here(), HashOf(m.body.header.value)))]
  {
    CertificateIsAccepted(p, ins, os, k, d, p');
  }

  // ----- Accepted proposals

  /** Input `i` gave the core proposal `header`: it was made proposer of it, or it received it from
      a validator for this view, found it good, and, after round 0, found it certified. */
  ghost predicate Brings(p: Params, i: Input, header: Header) {
    match i
    case Timer => false
    case Proposing(h, _, _) => h == header
    case Message(m) =>
      && m.from in p.validators && m.body.Proposal? && m.body.view == p.Here()
      && m.body.header == Some(header) && p.cfg.proposalVerifier(header)
      && (p.round > 0 ==> IsCertificate(p, m.body.rcc))
  }

  lemma InputBringsProposal(p: Params, s: State, i: Input, o: Outcome)
    requires Takes(p, s, i, o) && o.state.proposal.Some?
    ensures o.state.proposal == s.proposal || Brings(p, i, o.state.proposal.value)
  {
  }

  /** Over every life of a core, a proposal it holds came in by one of its inputs. */
  lemma {:induction false} ProposalWasBrought(p: Params, ins: seq<Input>, os: seq<Outcome>, k: nat) returns (j: nat)
    requires IsLife(p, ins, os) && k <= |os| && Before(os, k).proposal.Some?
    ensures j < k && Brings(p, ins[j], Before(os, k).proposal.value)
  {
    assert IsTaken(p, ins, os, k - 1);
    InputBringsProposal(p, Before(os, k - 1), ins[k - 1], os[k - 1]);
    if Brings(p, ins[k - 1], Before(os, k).proposal.value) {
      j := k - 1;
    } else {
      j := ProposalWasBrought(p, ins, os, k - 1);
    }
  }

  // ----- The backlog

  /** The backlog holds proposals from validators for later rounds, for at most 16 rounds. */
  ghost predicate Buffered(p: Params, backlog: map<nat, seq<Incoming>>) {
    |backlog| <= BACKLOG_ROUNDS && forall r :: r in backlog ==> AreEarly(p, r, backlog[r])
  }

  ghost predicate AreEarly(p: Params, round: nat, ms: seq<Incoming>) {
    round > p.round && forall m :: m in ms ==> IsEarly(p, round, m)
  }

  predicate IsEarly(p: Params, round: nat, m: Incoming) {
    m.from in p.validators && m.body.Proposal? && m.body.view.round == round
  }

  lemma OneMoreIsEarly(p: Params, r: nat, ms: seq<Incoming>, m: Incoming)
    requires AreEarly(p, r, ms) && IsEarly(p, r, m)
    ensures AreEarly(p, r, ms + [m])
  {
  }

  lemma KeysGrowByOne<V>(m: map<nat, V>, r: nat, v: V)
    ensures |m[r := v]| <= |m| + 1
  {
    assert m[r := v].Keys == m.Keys + {r};
  }

  lemma BufferKeepsBacklog(p: Params, s: State, m: Incoming, r: nat)
    requires Buffered(p, s.backlog) && r > p.round && IsEarly(p, r, m) && |s.backlog| < BACKLOG_ROUNDS
    ensures Buffered(p, Buffer(s, m, r).backlog)
  {
    var waiting := if r in s.backlog then s.backlog[r] else [];
    OneMoreIsEarly(p, r, waiting, m);
    KeysGrowByOne(s.backlog, r, waiting + [m]);
  }

  lemma OnlyProposalsAreBuffered(p: Params, s: State, i: Input, o: Outcome)
    requires Takes(p, s, i, o) && o.state.backlog != s.backlog
    ensures i.Message? && |s.backlog| < BACKLOG_ROUNDS
    ensures i.m.body.Proposal? && i.m.body.view.round > p.round && IsEarly(p, i.m.body.view.round, i.m)
    ensures o.state == Buffer(s, i.m, i.m.body.view.round)
  {
  }

  lemma InputKeepsBacklog(p: Params, s: State, i: Input, o: Outcome)
    requires Buffered(p, s.backlog) && Takes(p, s, i, o)
    ensures Buffered(p, o.state.backlog)
  {
    if o.state.backlog != s.backlog {
      OnlyProposalsAreBuffered(p, s, i, o);
      BufferKeepsBacklog(p, s, i.m, i.m.body.view.round);
    }
  }

  lemma {:induction false} LifeKeepsBacklog(p: Params, ins: seq<Input>, os: seq<Outcome>, k: nat)
    requires IsLife(p, ins, os) && k <= |os|
    ensures Buffered(p, Before(os, k).backlog)
  {
    if k > 0 {
      LifeKeepsBacklog(p, ins, os, k - 1);
      assert IsTaken(p, ins, os, k - 1);
      InputKeepsBacklog(p, Before(os, k - 1), ins[k - 1], os[k - 1]);
    }
  }
}

/**
 What a core does, said in terms of the inputs it has been given: over every life of a core, exactly
 when it takes a proposal, counts a vote, commits, and starts a round.
 */
module QbftHistory {
  import opened Primitives
  import opened Qbft
  import opened QbftRounds

  // ----- Proposals

  /** `e` is a round change to this view, signed by `a`. */
  predicate IsSignedBy(p: Params, e: Signed, a: Address) {
    && e.data.Some? && e.data.value.view.sequence == p.sequence && e.data.value.view.round == p.round
    && p.cfg.roundChangeSigVerifier(e.data, e.sig) == Some(a)
  }

  ghost predicate HasSigned(p: Params, rcc: seq<Signed>, a: Address) {
    exists i :: 0 <= i < |rcc| && IsSignedBy(p, rcc[i], a)
  }

  /** A certificate is good exactly if some quorum of distinct validators has signed it for this view. */
  lemma CertificateIff(p: Params, rcc: seq<Signed>)
    ensures IsCertificate(p, rcc) <==>
      exists q: set<Address> :: IsBackedBy(p, rcc, q) && |q| >= p.quorum
  {
    var all := Changers(p, p.Here(), rcc);
    forall a
      ensures a in all <==> a in p.validators && HasSigned(p, rcc, a)
    {
      if a in p.validators && HasSigned(p, rcc, a) {
        var i :| 0 <= i < |rcc| && IsSignedBy(p, rcc[i], a);
        assert IsChangeTo(p, p.Here(), rcc[i]);
      }
      if a in all {
        var i :| 0 <= i < |rcc| && IsChangeTo(p, p.Here(), rcc[i]) &&
          p.cfg.roundChangeSigVerifier(rcc[i].data, rcc[i].sig).value == a;
        assert IsSignedBy(p, rcc[i], a);
      }
    }
    assert IsBackedBy(p, rcc, all);
    if q: set<Address> :| IsBackedBy(p, rcc, q) && |q| >= p.quorum {
      SubsetIsNoLarger(q, all);
    }
  }

  ghost predicate IsBackedBy(p: Params, rcc: seq<Signed>, q: set<Address>) {
    forall a :: a in q ==> a in p.validators && HasSigned(p, rcc, a)
  }

  /** The proposal is for this view, and its header decodes and verifies; after round 0, it is certified. */
  ghost predicate IsGood(p: Params, b: Body) {
    && b.Proposal? && b.view == View(p.sequence, p.round)
    && b.header.Some? && p.cfg.proposalVerifier(b.header.value)
    && (p.round == 0 || IsCertificate(p, b.rcc))
  }

  /** A core without a proposal takes one exactly if it is good, and answers with PREPARE; any other
      proposal for this view is ignored. */
  lemma ProposalIsTakenIff(p: Params, s: State, m: Incoming, o: Outcome)
    requires HasProposal(s) && s.phase == New && m.from in p.validators
    requires m.body.Proposal? && m.body.view == View(p.sequence, p.round) && Handles(p, s, m, o)
    ensures if IsGood(p, m.body) then
              && o.state == s.(phase := Prepared, proposal := m.body.header, payload := m.body.payload,
                               hash := HashOf(m.body.header.value))
              && o.decisions == [Broadcast(Prepare(View(p.sequence, p.round), HashOf(m.body.header.value)))]
            else o == Outcome(s, [])
  {
  }

  // ----- Votes

  /** A core that has left New and not committed counts votes. */
  predicate IsCounting(s: State) {
    s.phase.Prepared? || s.phase.CommitSent? || s.phase.RoundChanging?
  }

  /** Input `i` is a validator's PREPARE that the core counts. */
  predicate IsPrepareFrom(p: Params, s: State, i: Input, x: Address) {
    && i.Message? && i.m.from == x && x in p.validators && IsCounting(s)
    && i.m.body == Prepare(View(p.sequence, p.round), s.hash)
  }

  /** Input `i` is a validator's COMMIT that the core counts: its seal, if any, is by the sender. */
  predicate IsCommitFrom(p: Params, s: State, i: Input, x: Address, seal: seq<byte>) {
    && i.Message? && i.m.from == x && x in p.validators && IsCounting(s)
    && i.m.body == Commit(View(p.sequence, p.round), s.hash, seal)
    && (seal != [] ==> s.proposal.Some? && p.cfg.commitSealVerifier(s.proposal.value, seal) == Some(x))
  }

  ghost predicate HasPrepared(p: Params, ins: seq<Input>, os: seq<Outcome>, k: nat, x: Address)
    requires k <= |ins| == |os|
  {
    exists j :: 0 <= j < k && IsPrepareFrom(p, Before(os, j), ins[j], x)
  }

  /** The COMMIT of `x` that counts at time `k` is the last one, input `j`. */
  ghost predicate LastCommit(p: Params, ins: seq<Input>, os: seq<Outcome>, k: nat, x: Address, j: nat, seal: seq<byte>)
    requires k <= |ins| == |os|
  {
    && j < k && IsCommitFrom(p, Before(os, j), ins[j], x, seal)
    && forall i, other :: j < i < k ==> !IsCommitFrom(p, Before(os, i), ins[i], x, other)
  }

  ghost predicate HasCommitted(p: Params, ins: seq<Input>, os: seq<Outcome>, k: nat, x: Address, seal: seq<byte>)
    requires k <= |ins| == |os|
  {
    exists j :: LastCommit(p, ins, os, k, x, j, seal)
  }

  /** Only a validator's own PREPARE or COMMIT changes what is noted of it. */
  lemma OthersLeaveVotes(p: Params, s: State, i: Input, o: Outcome)
    requires Takes(p, s, i, o)
    ensures !(i.Message? && i.m.body.Prepare?) ==> o.state.prepares == s.prepares
    ensures !(i.Message? && i.m.body.Commit?) ==> o.state.commits == s.commits
  {
  }

  lemma PreparesNext(p: Params, s: State, i: Input, o: Outcome, x: Address)
    requires Takes(p, s, i, o)
    ensures x in o.state.prepares <==> x in s.prepares || IsPrepareFrom(p, s, i, x)
  {
    OthersLeaveVotes(p, s, i, o);
  }

  lemma CommitIsNoted(p: Params, s: State, m: Incoming)
    requires m.body.Commit? && m.from in p.validators && !Panics(p, s, m)
    ensures HandleCommit(p, s, m).state.commits ==
      if IsCommitFrom(p, s, Message(m), m.from, m.body.seal) then s.commits[m.from := m.body.seal] else s.commits
  {
  }

  lemma CommitsNext(p: Params, s: State, i: Input, o: Outcome, x: Address, seal: seq<byte>)
    requires Takes(p, s, i, o) && HasProposal(s)
    ensures x in o.state.commits && o.state.commits[x] == seal <==>
      || IsCommitFrom(p, s, i, x, seal)
      || (x in s.commits && s.commits[x] == seal && forall other :: !IsCommitFrom(p, s, i, x, other))
  {
    OthersLeaveVotes(p, s, i, o);
    if i.Message? && i.m.body.Commit? && i.m.from in p.validators {
      CommitIsNoted(p, s, i.m);
      assert forall other :: IsCommitFrom(p, s, i, x, other) ==> other == i.m.body.seal && x == i.m.from;
    }
  }

  lemma {:induction false} LifeHasProposal(p: Params, ins: seq<Input>, os: seq<Outcome>, k: nat)
    requires IsLife(p, ins, os) && k <= |os|
    ensures HasProposal(Before(os, k))
  {
    if k > 0 {
      LifeHasProposal(p, ins, os, k - 1);
      assert IsTaken(p, ins, os, k - 1);
      InputKeepsProposal(p, Before(os, k - 1), ins[k - 1], os[k - 1]);
    }
  }

  lemma InputKeepsProposal(p: Params, s: State, i: Input, o: Outcome)
    requires HasProposal(s) && Takes(p, s, i, o)
    ensures HasProposal(o.state)
  {
    if i.Message? && i.m.from in p.validators {
      MessageKeepsProposal(p, s, i.m, o);
    }
  }

  lemma MessageKeepsProposal(p: Params, s: State, m: Incoming, o: Outcome)
    requires HasProposal(s) && m.from in p.validators && !Panics(p, s, m) && Handles(p, s, m, o)
    ensures HasProposal(o.state)
  {
    match m.body
    case Proposal(_, _, _, _) => assert o == HandleProposal(p, s, m);
    case Prepare(_, _) => assert o == HandlePrepare(p, s, m);
    case Commit(_, _, _) => assert o == HandleCommit(p, s, m);
    case Change(_) => assert o.state == NoteChange(p, s, m);
    case Malformed =>
  }

  /** At any time, the validators noted as prepared are exactly those whose matching PREPARE the core was
      given while it was counting. */
  lemma {:induction false} LifePreparesIff(p: Params, ins: seq<Input>, os: seq<Outcome>, k: nat, x: Address)
    requires IsLife(p, ins, os) && k <= |os|
    ensures x in Before(os, k).prepares <==> HasPrepared(p, ins, os, k, x)
  {
    if k > 0 {
      var n := k - 1;
      LifePreparesIff(p, ins, os, n, x);
      assert IsTaken(p, ins, os, n);
      PreparesNext(p, Before(os, n), ins[n], os[n], x);
      if IsPrepareFrom(p, Before(os, n), ins[n], x) {
        assert HasPrepared(p, ins, os, k, x);
      }
    }
  }

  /** And the seals it has are those of each validator's last matching COMMIT. */
  lemma {:induction false} LifeCommitsIff(
      p: Params, ins: seq<Input>, os: seq<Outcome>, k: nat, x: Address, seal: seq<byte>)
    requires IsLife(p, ins, os) && k <= |os|
    ensures x in Before(os, k).commits && Before(os, k).commits[x] == seal <==> HasCommitted(p, ins, os, k, x, seal)
  {
    if k > 0 {
      var n := k - 1;
      LifeCommitsIff(p, ins, os, n, x, seal);
      LifeHasProposal(p, ins, os, n);
      assert IsTaken(p, ins, os, n);
      CommitsNext(p, Before(os, n), ins[n], os[n], x, seal);
      LastCommitNext(p, ins, os, n, k, x, seal);
    }
  }

  lemma LastCommitNext(p: Params, ins: seq<Input>, os: seq<Outcome>, n: nat, k: nat, x: Address, seal: seq<byte>)
    requires n < |ins| == |os| && k == n + 1
    ensures HasCommitted(p, ins, os, k, x, seal) <==>
      || IsCommitFrom(p, Before(os, n), ins[n], x, seal)
      || (&& HasCommitted(p, ins, os, n, x, seal)
          && forall other :: !IsCommitFrom(p, Before(os, n), ins[n], x, other))
  {
    if IsCommitFrom(p, Before(os, n), ins[n], x, seal) {
      assert LastCommit(p, ins, os, k, x, n, seal);
    }
    forall j | LastCommit(p, ins, os, n, x, j, seal)
      ensures (forall other :: !IsCommitFrom(p, Before(os, n), ins[n], x, other)) ==>
        LastCommit(p, ins, os, k, x, j, seal)
    {
    }
    forall j | LastCommit(p, ins, os, k, x, j, seal)
      ensures j == n || (LastCommit(p, ins, os, n, x, j, seal) &&
                         forall other :: !IsCommitFrom(p, Before(os, n), ins[n], x, other))
    {
    }
  }

  // ----- Decisions on votes

  ghost predicate BroadcastsCommit(o: Outcome) {
    exists d :: d in o.decisions && d.Broadcast? && d.body.Commit?
  }

  ghost predicate EmitsBlock(o: Outcome) {
    exists d :: d in o.decisions && d.CommitBlock?
  }

  /** The PREPARE that completes a quorum at a prepared core, and nothing else, makes it broadcast
      COMMIT, for its proposal and with its seal. */
  lemma VoteIff(p: Params, s: State, i: Input, o: Outcome)
    requires Takes(p, s, i, o) && HasProposal(s)
    ensures BroadcastsCommit(o) <==>
      && s.phase == Prepared && i.Message? && IsPrepareFrom(p, s, i, i.m.from)
      && |o.state.prepares| >= p.quorum && p.cfg.commitSealSigner(s.proposal.value).Some?
    ensures BroadcastsCommit(o) ==>
      o.decisions ==
        [Broadcast(Commit(View(p.sequence, p.round), s.hash, p.cfg.commitSealSigner(s.proposal.value).value))]
  {
    if i.Message? && i.m.body.Prepare? && i.m.from in p.validators {
      PrepareOutcome(p, s, i.m);
    } else {
      OnlyPreparesVote(p, s, i, o);
    }
  }

  lemma OnlyPreparesVote(p: Params, s: State, i: Input, o: Outcome)
    requires Takes(p, s, i, o) && !(i.Message? && i.m.body.Prepare? && i.m.from in p.validators)
    ensures !BroadcastsCommit(o)
  {
  }

  lemma PrepareOutcome(p: Params, s: State, m: Incoming)
    requires HasProposal(s) && m.body.Prepare? && m.from in p.validators
    ensures
      var o := HandlePrepare(p, s, m);
      if s.phase == Prepared && IsPrepareFrom(p, s, Message(m), m.from) && |o.state.prepares| >= p.quorum &&
         p.cfg.commitSealSigner(s.proposal.value).Some?
      then o.decisions ==
        [Broadcast(Commit(View(p.sequence, p.round), s.hash, p.cfg.commitSealSigner(s.proposal.value).value))]
      else o.decisions == []
  {
  }

  /** The COMMIT that completes a quorum, and nothing else, makes the core emit its block, if the seals
      can be put in. */
  lemma CommitIff(p: Params, s: State, i: Input, o: Outcome)
    requires Takes(p, s, i, o) && HasProposal(s)
    ensures EmitsBlock(o) <==>
      && i.Message? && i.m.body.Commit? && IsCommitFrom(p, s, i, i.m.from, i.m.body.seal)
      && |o.state.commits| >= p.quorum && s.proposal.Some?
      && p.cfg.commitBlock(s.proposal.value, SealList(o.state.commits)).Some?
    ensures EmitsBlock(o) ==>
      o.decisions == [CommitBlock(p.cfg.commitBlock(s.proposal.value, SealList(o.state.commits)).value, s.payload)]
  {
    if i.Message? && i.m.body.Commit? && i.m.from in p.validators {
      CommitOutcome(p, s, i.m);
      assert o.decisions != [] ==> o.decisions[0] in o.decisions;
    } else {
      OnlyCommitsEmit(p, s, i, o);
    }
  }

  lemma OnlyCommitsEmit(p: Params, s: State, i: Input, o: Outcome)
    requires Takes(p, s, i, o) && !(i.Message? && i.m.body.Commit? && i.m.from in p.validators)
    ensures !EmitsBlock(o)
  {
  }

  lemma CommitOutcome(p: Params, s: State, m: Incoming)
    requires HasProposal(s) && m.body.Commit? && m.from in p.validators && !Panics(p, s, m)
    ensures
      var o := HandleCommit(p, s, m);
      if IsCommitFrom(p, s, Message(m), m.from, m.body.seal) && |o.state.commits| >= p.quorum && s.proposal.Some? &&
         p.cfg.commitBlock(s.proposal.value, SealList(o.state.commits)).Some?
      then o.decisions ==
        [CommitBlock(p.cfg.commitBlock(s.proposal.value, SealList(o.state.commits)).value, s.payload)]
      else o.decisions == []
  {
    if Concerns(p, s, m) {
      var commits := s.commits[m.from := m.body.seal];
      if |m.body.seal| > 0 {
        assert UsesProposal(p, s, m) && s.proposal.Some?;
      }
      assert IsCommitFrom(p, s, Message(m), m.from, m.body.seal) ==>
        HandleCommit(p, s, m).state.commits == commits;
    }
  }

  /** Those whose matching PREPARE the core has been given. */
  ghost function PreparedBy(p: Params, ins: seq<Input>, os: seq<Outcome>, k: nat): set<Address>
    requires k <= |ins| == |os|
  {
    set x | x in p.validators && HasPrepared(p, ins, os, k, x)
  }

  /** Over every life: COMMIT goes out exactly when, at a prepared core, a PREPARE brings the distinct
      validators heard from to a quorum. */
  lemma LifeVoteIff(p: Params, ins: seq<Input>, os: seq<Outcome>, k: nat)
    requires IsLife(p, ins, os) && k < |os|
    ensures
      var s := Before(os, k);
      BroadcastsCommit(os[k]) <==>
        && s.phase == Prepared && ins[k].Message? && IsPrepareFrom(p, s, ins[k], ins[k].m.from)
        && |PreparedBy(p, ins, os, k + 1)| >= p.quorum
        && s.proposal.Some? && p.cfg.commitSealSigner(s.proposal.value).Some?
  {
    LifeHasProposal(p, ins, os, k);
    assert IsTaken(p, ins, os, k);
    VoteIff(p, Before(os, k), ins[k], os[k]);
    PreparedAreKeys(p, ins, os, k + 1);
  }

  lemma PreparedAreKeys(p: Params, ins: seq<Input>, os: seq<Outcome>, k: nat)
    requires IsLife(p, ins, os) && k <= |os|
    ensures PreparedBy(p, ins, os, k) == Before(os, k).prepares.Keys
    ensures |PreparedBy(p, ins, os, k)| == |Before(os, k).prepares|
  {
    forall x: Address
      ensures x in PreparedBy(p, ins, os, k) <==> x in Before(os, k).prepares
    {
      LifePreparesIff(p, ins, os, k, x);
    }
    assert |Before(os, k).prepares| == |Before(os, k).prepares.Keys|;
  }

  /** Those whose matching COMMIT the core has been given. */
  ghost function CommittedBy(p: Params, ins: seq<Input>, os: seq<Outcome>, k: nat): set<Address>
    requires k <= |ins| == |os|
  {
    set x | x in p.validators && exists seal :: HasCommitted(p, ins, os, k, x, seal)
  }

  /** Over every life: the block is emitted exactly when a COMMIT brings the distinct validators heard
      from to a quorum, at a core with a proposal whose seals can be put in. */
  lemma LifeCommitIff(p: Params, ins: seq<Input>, os: seq<Outcome>, k: nat)
    requires IsLife(p, ins, os) && k < |os|
    ensures
      var s := Before(os, k);
      EmitsBlock(os[k]) <==>
        && ins[k].Message? && ins[k].m.body.Commit? && IsCommitFrom(p, s, ins[k], ins[k].m.from, ins[k].m.body.seal)
        && |CommittedBy(p, ins, os, k + 1)| >= p.quorum && s.proposal.Some?
        && p.cfg.commitBlock(s.proposal.value, SealList(os[k].state.commits)).Some?
  {
    LifeHasProposal(p, ins, os, k);
    assert IsTaken(p, ins, os, k);
    CommitIff(p, Before(os, k), ins[k], os[k]);
    CommittedAreKeys(p, ins, os, k + 1);
  }

  lemma CommittedAreKeys(p: Params, ins: seq<Input>, os: seq<Outcome>, k: nat)
    requires IsLife(p, ins, os) && k <= |os|
    ensures CommittedBy(p, ins, os, k) == Before(os, k).commits.Keys
    ensures |CommittedBy(p, ins, os, k)| == |Before(os, k).commits|
  {
    var commits := Before(os, k).commits;
    forall x: Address
      ensures x in CommittedBy(p, ins, os, k) <==> x in commits
    {
      if x in commits {
        LifeCommitsIff(p, ins, os, k, x, commits[x]);
      }
      forall seal
        ensures HasCommitted(p, ins, os, k, x, seal) ==> x in commits
      {
        LifeCommitsIff(p, ins, os, k, x, seal);
      }
    }
    assert |commits| == |commits.Keys|;
  }

  // ----- Phases

  /** The phase after an input, from the phase before and what the input is. */
  lemma PhaseNext(p: Params, s: State, i: Input, o: Outcome)
    requires Takes(p, s, i, o) && HasProposal(s)
    ensures o.state.phase ==
      match i
      case Timer => if s.phase == Committed then Committed else RoundChanging
      case Proposing(_, _, _) => Prepared
      case Message(m) =>
        if m.from in p.validators && s.phase == New && IsGood(p, m.body) then Prepared
        else if s.phase == Prepared && IsPrepareFrom(p, s, i, m.from) && |o.state.prepares| >= p.quorum then CommitSent
        else if EmitsBlock(o) then Committed
        else s.phase
  {
    if i.Message? && i.m.from in p.validators {
      MessagePhase(p, s, i.m, o);
    }
    CommitIff(p, s, i, o);
  }

  lemma MessagePhase(p: Params, s: State, m: Incoming, o: Outcome)
    requires m.from in p.validators && HasProposal(s) && Takes(p, s, Message(m), o)
    ensures o.state.phase ==
      if s.phase == New && IsGood(p, m.body) then Prepared
      else if s.phase == Prepared && IsPrepareFrom(p, s, Message(m), m.from) && |o.state.prepares| >= p.quorum
      then CommitSent
      else if EmitsBlock(o) then Committed
      else s.phase
  {
    match m.body
    case Proposal(_, _, _, _) => ProposalPhase(p, s, m);
    case Prepare(_, _) => PreparePhase(p, s, m);
    case Commit(_, _, _) => CommitPhase(p, s, m);
    case Change(_) => ChangePhase(p, s, m, o);
    case Malformed =>
  }

  lemma ProposalPhase(p: Params, s: State, m: Incoming)
    requires m.body.Proposal?
    ensures
      var o := HandleProposal(p, s, m);
      o.state.phase == (if s.phase == New && IsGood(p, m.body) then Prepared else s.phase) && !EmitsBlock(o)
  {
  }

  lemma PreparePhase(p: Params, s: State, m: Incoming)
    requires m.body.Prepare? && HasProposal(s) && m.from in p.validators
    ensures
      var o := HandlePrepare(p, s, m);
      && !EmitsBlock(o)
      && o.state.phase ==
           if s.phase == Prepared && IsPrepareFrom(p, s, Message(m), m.from) && |o.state.prepares| >= p.quorum
           then CommitSent else s.phase
  {
  }

  lemma CommitPhase(p: Params, s: State, m: Incoming)
    requires m.body.Commit? && HasProposal(s) && m.from in p.validators && !Panics(p, s, m)
    ensures
      var o := HandleCommit(p, s, m);
      o.state.phase == if EmitsBlock(o) then Committed else s.phase
  {
    var o := HandleCommit(p, s, m);
    assert o.decisions != [] ==> o.decisions[0] in o.decisions;
  }

  lemma ChangePhase(p: Params, s: State, m: Incoming, o: Outcome)
    requires m.body.Change? && HandlesChange(p, s, m, o)
    ensures o.state.phase == s.phase && !EmitsBlock(o)
  {
  }

  // ----- Round changes

  /** The round timer makes a core ask for the next round.  A core that is prepared or has voted reports
      its proposal and payload, and any other reports none. */
  lemma TimeoutReports(p: Params, s: State)
    requires HasProposal(s) && s.phase != Committed
    ensures
      var rc :=
        if s.phase == Prepared || s.phase == CommitSent
        then RoundChange(View(p.sequence, p.round + 1), p.round, Encoded(s.proposal.value), s.payload)
        else RoundChange(View(p.sequence, p.round + 1), 0, NoBlock, []);
      Timeout(p, s) == Outcome(s.(phase := RoundChanging), [Broadcast(Change(rc))])
  {
  }

  /** Input `i` is a validator's round change to a later round of this sequence. */
  predicate IsChangeFrom(p: Params, i: Input, x: Address) {
    && i.Message? && i.m.from == x && x in p.validators && i.m.body.Change?
    && i.m.body.rc.view.sequence == p.sequence && i.m.body.rc.view.round > p.round
  }

  /** Input `j` is the last round change of `x` before time `k`. */
  ghost predicate LastChange(p: Params, ins: seq<Input>, k: nat, x: Address, j: nat)
    requires k <= |ins|
  {
    j < k && IsChangeFrom(p, ins[j], x) && forall i :: j < i < k ==> !IsChangeFrom(p, ins[i], x)
  }

  /** `n` is what there is to note of `x`'s last round change, input `j`. */
  ghost predicate IsLastNote(p: Params, ins: seq<Input>, k: nat, x: Address, n: Noted, j: nat)
    requires k <= |ins|
  {
    LastChange(p, ins, k, x, j) && n == Noted(ins[j].m.body.rc, ins[j].m.sig)
  }

  lemma ChangesNext(p: Params, s: State, i: Input, o: Outcome)
    requires Takes(p, s, i, o)
    ensures o.state.changes ==
      if i.Message? && IsChangeFrom(p, i, i.m.from) then s.changes[i.m.from := Noted(i.m.body.rc, i.m.sig)]
      else s.changes
  {
    if o.state.changes != s.changes {
      OnlyChangesAreNoted(p, s, i, o);
    } else if i.Message? && IsChangeFrom(p, i, i.m.from) {
      assert o.state == NoteChange(p, s, i.m);
    }
  }

  /** At any time, what is noted of a validator is its last round change. */
  lemma {:induction false} LifeChangesIff(p: Params, ins: seq<Input>, os: seq<Outcome>, k: nat, x: Address, n: Noted)
    requires IsLife(p, ins, os) && k <= |os|
    ensures x in Before(os, k).changes && Before(os, k).changes[x] == n <==>
      exists j :: IsLastNote(p, ins, k, x, n, j)
  {
    if k > 0 {
      var l := k - 1;
      LifeChangesIff(p, ins, os, l, x, n);
      assert IsTaken(p, ins, os, l);
      ChangesNext(p, Before(os, l), ins[l], os[l]);
      LastNoteNext(p, ins, l, k, x, n);
    }
  }

  lemma LastNoteNext(p: Params, ins: seq<Input>, l: nat, k: nat, x: Address, n: Noted)
    requires l < |ins| && k == l + 1
    ensures (exists j :: IsLastNote(p, ins, k, x, n, j)) <==>
      if IsChangeFrom(p, ins[l], x) then n == Noted(ins[l].m.body.rc, ins[l].m.sig)
      else exists j :: IsLastNote(p, ins, l, x, n, j)
  {
    LastChangeNext(p, ins, l, k, x);
    if IsChangeFrom(p, ins[l], x) {
      assert n == Noted(ins[l].m.body.rc, ins[l].m.sig) ==> IsLastNote(p, ins, k, x, n, l);
    } else {
      forall j
        ensures IsLastNote(p, ins, k, x, n, j) <==> IsLastNote(p, ins, l, x, n, j)
      {
      }
    }
  }

  lemma LastChangeNext(p: Params, ins: seq<Input>, l: nat, k: nat, x: Address)
    requires l < |ins| && k == l + 1
    ensures IsChangeFrom(p, ins[l], x) ==> forall j :: LastChange(p, ins, k, x, j) <==> j == l
    ensures !IsChangeFrom(p, ins[l], x) ==> forall j :: LastChange(p, ins, k, x, j) <==> LastChange(p, ins, l, x, j)
  {
    if IsChangeFrom(p, ins[l], x) {
      assert LastChange(p, ins, k, x, l);
    }
  }

  /** Validator `x` last asked for `round`. */
  ghost predicate AsksFor(p: Params, ins: seq<Input>, k: nat, x: Address, round: nat)
    requires k <= |ins|
  {
    exists n, j :: IsLastNote(p, ins, k, x, n, j) && n.rc.view.round == round
  }

  ghost function Askers(p: Params, ins: seq<Input>, k: nat, round: nat): set<Address>
    requires k <= |ins|
  {
    set x | x in p.validators && AsksFor(p, ins, k, x, round)
  }

  /** Over every life: a round is started exactly when a round change to it comes in and a quorum of
      validators last asked for it. */
  lemma LifeStartIff(p: Params, ins: seq<Input>, os: seq<Outcome>, k: nat, round: nat)
    requires IsLife(p, ins, os) && k < |os|
    ensures (exists d :: d in os[k].decisions && d.StartRound? && d.round == round) <==>
      && ins[k].Message? && IsChangeFrom(p, ins[k], ins[k].m.from) && ins[k].m.body.rc.view.round == round
      && |Askers(p, ins, k + 1, round)| >= p.quorum
  {
    assert IsTaken(p, ins, os, k);
    AskersAreAiming(p, ins, os, k + 1, round);
    StartsIff(p, Before(os, k), ins[k], os[k], round);
  }

  lemma StartsIff(p: Params, s: State, i: Input, o: Outcome, round: nat)
    requires Takes(p, s, i, o)
    ensures (exists d :: d in o.decisions && d.StartRound? && d.round == round) <==>
      && i.Message? && IsChangeFrom(p, i, i.m.from) && i.m.body.rc.view.round == round
      && |Aiming(o.state.changes, round)| >= p.quorum
  {
    if i.Message? && i.m.from in p.validators && i.m.body.Change? {
      ChangeStarts(p, s, i.m, o, round);
    } else {
      OthersStartNothing(p, s, i, o);
    }
  }

  lemma OthersStartNothing(p: Params, s: State, i: Input, o: Outcome)
    requires Takes(p, s, i, o) && !(i.Message? && i.m.from in p.validators && i.m.body.Change?)
    ensures forall d :: d in o.decisions ==> !d.StartRound?
  {
  }

  lemma ChangeStarts(p: Params, s: State, m: Incoming, o: Outcome, round: nat)
    requires m.body.Change? && m.from in p.validators && HandlesChange(p, s, m, o)
    ensures (exists d :: d in o.decisions && d.StartRound? && d.round == round) <==>
      && IsChangeFrom(p, Message(m), m.from) && m.body.rc.view.round == round
      && |Aiming(o.state.changes, round)| >= p.quorum
  {
    if o.decisions != [] {
      assert o.decisions[0] in o.decisions && o.decisions[0].StartRound?;
    }
  }

  lemma AskersAreAiming(p: Params, ins: seq<Input>, os: seq<Outcome>, k: nat, round: nat)
    requires IsLife(p, ins, os) && k <= |os|
    ensures Askers(p, ins, k, round) == Aiming(Before(os, k).changes, round)
  {
    var changes := Before(os, k).changes;
    forall x: Address
      ensures x in Askers(p, ins, k, round) <==> x in Aiming(changes, round)
    {
      if x in Aiming(changes, round) {
        LifeChangesIff(p, ins, os, k, x, changes[x]);
      }
      if AsksFor(p, ins, k, x, round) {
        var n, j :| IsLastNote(p, ins, k, x, n, j) && n.rc.view.round == round;
        LifeChangesIff(p, ins, os, k, x, n);
      }
    }
  }

  // ----- The backlog

  /** Input `i` is a validator's early proposal for `round` that there is room for. */
  predicate IsKept(p: Params, s: State, i: Input, round: nat) {
    && i.Message? && i.m.from in p.validators && i.m.body.Proposal? && i.m.body.view.round == round
    && round > p.round && s.phase == New && |s.backlog| < 16
  }

  /** The early proposals for `round` so far, in order. */
  ghost function EarlyFor(p: Params, ins: seq<Input>, os: seq<Outcome>, k: nat, round: nat): seq<Incoming>
    requires k <= |ins| == |os|
  {
    if k == 0 then []
    else
      var last := if IsKept(p, Before(os, k - 1), ins[k - 1], round) then [ins[k - 1].m] else [];
      EarlyFor(p, ins, os, k - 1, round) + last
  }

  function BacklogOf(s: State, round: nat): seq<Incoming> {
    if round in s.backlog then s.backlog[round] else []
  }

  lemma BacklogNext(p: Params, s: State, i: Input, o: Outcome, round: nat)
    requires Takes(p, s, i, o)
    ensures BacklogOf(o.state, round) == BacklogOf(s, round) + if IsKept(p, s, i, round) then [i.m] else []
  {
    if IsKept(p, s, i, round) {
      assert o == HandleProposal(p, s, i.m);
      assert o.state == Buffer(s, i.m, round);
    } else if o.state.backlog != s.backlog {
      OnlyProposalsAreBuffered(p, s, i, o);
    }
  }

  lemma BacklogAt(p: Params, ins: seq<Input>, os: seq<Outcome>, k: nat, round: nat)
    requires IsLife(p, ins, os) && k < |os|
    ensures BacklogOf(os[k].state, round) ==
      BacklogOf(Before(os, k), round) + if IsKept(p, Before(os, k), ins[k], round) then [ins[k].m] else []
  {
    assert IsTaken(p, ins, os, k);
    BacklogNext(p, Before(os, k), ins[k], os[k], round);
  }

  /** Over every life: the backlog for a round holds all early proposals for it that there was room for,
      in the order they came. */
  lemma {:induction false} LifeBacklog(p: Params, ins: seq<Input>, os: seq<Outcome>, k: nat, round: nat)
    requires IsLife(p, ins, os) && k <= |os|
    ensures BacklogOf(Before(os, k), round) == EarlyFor(p, ins, os, k, round)
  {
    if k > 0 {
      LifeBacklog(p, ins, os, k - 1, round);
      BacklogAt(p, ins, os, k - 1, round);
    }
  }
}

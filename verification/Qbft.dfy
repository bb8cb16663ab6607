/**
 One QBFT instance: the messages of a view and what a validator's core does with each of them.

 A message stands for its decoded content.  `Malformed` is a message that does not decode,
 `None` in place of a header is header bytes that do not decode.
 */
module Qbft {
  import opened Primitives
  import opened ByteOrder

  datatype View = View(sequence: nat, round: nat)

  /** The prepared block of a round change: absent, undecodable bytes, or a header. */
  datatype Block = NoBlock | BadBlock | Encoded(header: Header)

  datatype RoundChange = RoundChange(view: View, preparedRound: nat, block: Block, payload: seq<byte>)

  /** A signed round change, as carried in a round-change certificate. */
  datatype Signed = Signed(data: Option<RoundChange>, sig: seq<byte>)

  datatype Body =
    | Proposal(view: View, header: Option<Header>, payload: seq<byte>, rcc: seq<Signed>)
    | Prepare(view: View, hash: Hash)
    | Commit(view: View, hash: Hash, seal: seq<byte>)
    | Change(rc: RoundChange)
    | Malformed

  datatype Incoming = Incoming(from: Address, body: Body, sig: seq<byte>)

  datatype Decision =
    | Broadcast(body: Body)
    | CommitBlock(header: Header, payload: seq<byte>)
    | StartRound(round: nat, prepared: Option<Header>, preparedPayload: seq<byte>, rcc: seq<Signed>)

  /** The callbacks into the node, where None is an error, and the bytes of a round change. */
  datatype Config = Config(
    proposalVerifier: Header -> bool,
    commitSealSigner: Header -> Option<seq<byte>>,
    commitSealVerifier: (Header, seq<byte>) -> Option<Address>,
    commitBlock: (Header, seq<seq<byte>>) -> Option<Header>,
    roundChangeSigVerifier: (Option<RoundChange>, seq<byte>) -> Option<Address>,
    encode: RoundChange -> seq<byte>)

  datatype Phase = New | Prepared | CommitSent | Committed | RoundChanging

  datatype Params = Params(sequence: nat, round: nat, quorum: nat, validators: set<Address>, cfg: Config) {
    function Here(): View {
      View(sequence, round)
    }
  }

  datatype Noted = Noted(rc: RoundChange, sig: seq<byte>)

  datatype State = State(
    phase: Phase,
    proposal: Option<Header>,
    payload: seq<byte>,
    hash: Hash,
    prepares: map<Address, Hash>,
    commits: map<Address, seq<byte>>,
    changes: map<Address, Noted>,
    backlog: map<nat, seq<Incoming>>)

  datatype Outcome = Outcome(state: State, decisions: seq<Decision>)

  const INITIAL := State(New, None, [], ZERO_HASH, map[], map[], map[], map[])

  const BACKLOG_ROUNDS: nat := 16

  /** floor(2N/3) + 1. */
  function Quorum(n: nat): nat {
    2 * n / 3 + 1
  }

  // ----- Proposals

  function StartProposer(p: Params, s: State, header: Header, payload: seq<byte>, rcc: seq<Signed>): Outcome {
    Outcome(
      s.(proposal := Some(header), payload := payload, hash := HashOf(header), phase := Prepared),
      [Broadcast(Proposal(p.Here(), Some(header), payload, rcc)), Broadcast(Prepare(p.Here(), HashOf(header)))])
  }

  /** The validators who signed a round change to `view` in the certificate. */
  ghost function Changers(p: Params, view: View, rcc: seq<Signed>): set<Address> {
    set i | 0 <= i < |rcc| && IsChangeTo(p, view, rcc[i]) :: p.cfg.roundChangeSigVerifier(rcc[i].data, rcc[i].sig).value
  }

  predicate IsChangeTo(p: Params, view: View, e: Signed) {
    && var signer := p.cfg.roundChangeSigVerifier(e.data, e.sig);
    signer.Some? && signer.value in p.validators
    && e.data.Some? && e.data.value.view == view
  }

  ghost predicate IsCertificate(p: Params, rcc: seq<Signed>) {
    |Changers(p, p.Here(), rcc)| >= p.quorum
  }

  function Buffer(s: State, m: Incoming, round: nat): State {
    s.(backlog := s.backlog[round := (if round in s.backlog then s.backlog[round] else []) + [m]])
  }

  ghost function HandleProposal(p: Params, s: State, m: Incoming): Outcome
    requires m.body.Proposal?
  {
    var b := m.body;
    if s.phase != New then Outcome(s, [])
    else if b.view != p.Here() then
      Outcome(if b.view.round > p.round && |s.backlog| < BACKLOG_ROUNDS then Buffer(s, m, b.view.round) else s, [])
    else if p.round > 0 && !IsCertificate(p, b.rcc) then Outcome(s, [])
    else if b.header == None || !p.cfg.proposalVerifier(b.header.value) then Outcome(s, [])
    else
      Outcome(
        s.(proposal := b.header, payload := b.payload, hash := HashOf(b.header.value), phase := Prepared),
        [Broadcast(Prepare(p.Here(), HashOf(b.header.value)))])
  }

  // ----- Prepares and commits

  function HandlePrepare(p: Params, s: State, m: Incoming): Outcome
    requires m.body.Prepare? && (s.phase == Prepared ==> s.proposal.Some?)
  {
    if s.phase == New || s.phase == Committed || m.body.view != p.Here() || m.body.hash != s.hash then Outcome(s, [])
    else
      var s1 := s.(prepares := s.prepares[m.from := m.body.hash]);
      if s.phase != Prepared || |s1.prepares| < p.quorum then Outcome(s1, [])
      else
        var s2 := s1.(phase := CommitSent);
        match p.cfg.commitSealSigner(s.proposal.value)
        case None => Outcome(s2, [])
        case Some(seal) => Outcome(s2, [Broadcast(Commit(p.Here(), s.hash, seal))])
  }

  predicate SealIsBy(cfg: Config, h: Header, seal: seq<byte>, from: Address) {
    |seal| == 0 || cfg.commitSealVerifier(h, seal) == Some(from)
  }

  /** The collected seals in the order of their signers' addresses. */
  function SealList(commits: map<Address, seq<byte>>): (r: seq<seq<byte>>) {
    var order := Ascending(commits.Keys);
    seq(|order|, i requires 0 <= i < |order| => assert order[i] in order; commits[order[i]])
  }

  /** The COMMIT is for the core's view and names its proposal hash. */
  predicate Concerns(p: Params, s: State, m: Incoming)
    requires m.body.Commit?
  {
    s.phase != New && s.phase != Committed && m.body.view == p.Here() && m.body.hash == s.hash
  }

  /** Handling the COMMIT hands the proposal to a callback: to check its seal, or to commit the block. */
  predicate UsesProposal(p: Params, s: State, m: Incoming)
    requires m.body.Commit?
  {
    Concerns(p, s, m) && (|m.body.seal| > 0 || |s.commits[m.from := m.body.seal]| >= p.quorum)
  }

  /** A callback would be handed a missing proposal, which ends the process. */
  predicate Panics(p: Params, s: State, m: Incoming) {
    m.from in p.validators && m.body.Commit? && UsesProposal(p, s, m) && s.proposal == None
  }

  function HandleCommit(p: Params, s: State, m: Incoming): Outcome
    requires m.body.Commit? && m.from in p.validators && !Panics(p, s, m)
  {
    if !Concerns(p, s, m) then Outcome(s, [])
    else if |m.body.seal| > 0 && p.cfg.commitSealVerifier(s.proposal.value, m.body.seal) != Some(m.from) then
      Outcome(s, [])
    else
      var s1 := s.(commits := s.commits[m.from := m.body.seal]);
      if |s1.commits| < p.quorum then Outcome(s1, [])
      else match p.cfg.commitBlock(s.proposal.value, SealList(s1.commits))
        case None => Outcome(s1, [])
        case Some(final) => Outcome(s1.(phase := Committed), [CommitBlock(final, s.payload)])
  }

  // ----- Round changes

  function Timeout(p: Params, s: State): Outcome {
    if s.phase == Committed then Outcome(s, [])
    else
      var next := View(p.sequence, p.round + 1);
      var rc :=
        if s.phase == Prepared || s.phase == CommitSent then
          RoundChange(next, p.round, if s.proposal.Some? then Encoded(s.proposal.value) else NoBlock, s.payload)
        else RoundChange(next, 0, NoBlock, []);
      Outcome(s.(phase := RoundChanging), [Broadcast(Change(rc))])
  }

  /** The validators whose last round change aims at `round`. */
  function Aiming(changes: map<Address, Noted>, round: nat): set<Address> {
    set a | a in changes && changes[a].rc.view.round == round
  }

  /** `order` lists the members of `s`, each once. */
  ghost predicate Enumerates(order: seq<Address>, s: set<Address>) {
    && |order| == |s|
    && (forall a :: a in order <==> a in s)
    && (forall i, j :: 0 <= i < j < |order| ==> order[i] != order[j])
  }

  /** The certificate holds the noted round changes to `round`, one per sender, in some order. */
  ghost predicate Certifies(changes: map<Address, Noted>, round: nat, rcc: seq<Signed>, order: seq<Address>) {
    && Enumerates(order, Aiming(changes, round))
    && |rcc| == |order|
    && forall i :: 0 <= i < |order| ==>
      order[i] in changes && rcc[i] == Signed(Some(changes[order[i]].rc), changes[order[i]].sig)
  }

  /** What the entries of a certificate are sorted by. */
  function Keys(encode: RoundChange -> seq<byte>, rcc: seq<Signed>): seq<seq<byte>> {
    seq(|rcc|, i requires 0 <= i < |rcc| => if rcc[i].data.Some? then encode(rcc[i].data.value) else [])
  }

  /** `d` is a decision to start `round`: it carries a prepared block of the highest prepared
      round among the round changes to `round`, if any has one. */
  ghost predicate Starts(changes: map<Address, Noted>, round: nat, d: Decision) {
    && d.StartRound? && d.round == round
    && (exists order :: Certifies(changes, round, d.rcc, order))
    && (if forall a :: a in Aiming(changes, round) ==> changes[a].rc.block == NoBlock
        then d.prepared == None && d.preparedPayload == []
        else exists a :: a in Aiming(changes, round) && IsHighest(changes, round, a) && Carries(changes[a].rc, d))
  }

  ghost predicate IsHighest(changes: map<Address, Noted>, round: nat, a: Address)
    requires a in changes
  {
    && changes[a].rc.block != NoBlock
    && forall b :: b in Aiming(changes, round) && changes[b].rc.block != NoBlock ==>
      changes[b].rc.preparedRound <= changes[a].rc.preparedRound
  }

  predicate Carries(rc: RoundChange, d: Decision)
    requires d.StartRound?
  {
    && d.prepared == (if rc.block.Encoded? then Some(rc.block.header) else None)
    && d.preparedPayload == rc.payload
  }

  function NoteChange(p: Params, s: State, m: Incoming): State
    requires m.body.Change?
  {
    var rc := m.body.rc;
    if rc.view.sequence != p.sequence || rc.view.round <= p.round then s
    else s.(changes := s.changes[m.from := Noted(rc, m.sig)])
  }

  /** What the core does with a round change.  Which of several equally high prepared blocks it
      picks is left open, and so is the order of certificate entries with the same bytes. */
  ghost predicate HandlesChange(p: Params, s: State, m: Incoming, o: Outcome)
    requires m.body.Change?
  {
    var rc := m.body.rc;
    && o.state == NoteChange(p, s, m)
    && if rc.view.sequence == p.sequence && rc.view.round > p.round &&
          |Aiming(o.state.changes, rc.view.round)| >= p.quorum
       then
         && |o.decisions| == 1 && Starts(o.state.changes, rc.view.round, o.decisions[0])
         && IsSorted(Keys(p.cfg.encode, o.decisions[0].rcc))
       else o.decisions == []
  }

  // ----- Any message

  /** A state has a proposal exactly if it has its hash. */
  predicate HasProposal(s: State) {
    && s.hash == (if s.proposal.Some? then HashOf(s.proposal.value) else ZERO_HASH)
    && (s.phase.Prepared? || s.phase.CommitSent? || s.phase.Committed? ==> s.proposal.Some?)
  }

  /** The exact condition: a COMMIT that names the zero hash, at a core whose timer fired before it
      had a proposal, with a seal to check or completing a quorum. */
  lemma PanicsIff(p: Params, s: State, m: Incoming)
    requires HasProposal(s)
    ensures Panics(p, s, m) <==>
      && m.from in p.validators && m.body.Commit? && m.body.view == p.Here() && m.body.hash == ZERO_HASH
      && s.phase == RoundChanging && s.proposal == None
      && (|m.body.seal| > 0 || |s.commits[m.from := m.body.seal]| >= p.quorum)
  {
  }

  /** `o` is an outcome of giving `m` to the core. */
  ghost predicate Handles(p: Params, s: State, m: Incoming, o: Outcome)
    requires HasProposal(s) && !Panics(p, s, m)
  {
    if m.from !in p.validators then o == Outcome(s, [])
    else match m.body
      case Proposal(_, _, _, _) => o == HandleProposal(p, s, m)
      case Prepare(_, _) => o == HandlePrepare(p, s, m)
      case Commit(_, _, _) => o == HandleCommit(p, s, m)
      case Change(_) => HandlesChange(p, s, m, o)
      case Malformed => o == Outcome(s, [])
  }

  /** A decision to start a round answers a quorum of round changes to it. */
  lemma StartComesFromChange(p: Params, s: State, m: Incoming, o: Outcome, d: Decision)
    requires HasProposal(s) && !Panics(p, s, m) && Handles(p, s, m, o) && d in o.decisions && d.StartRound?
    ensures d.round > p.round && Starts(o.state.changes, d.round, d) && |Aiming(o.state.changes, d.round)| >= p.quorum
  {
  }
}

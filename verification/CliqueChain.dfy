/** What header verification guarantees along a whole chain. */
module CliqueChain {
  import opened Primitives
  import opened Turns
  import opened Clique
  import opened ForkTree
  import opened SnapshotCache

  /** Block `h` was sealed by the signer whose turn it was. */
  ghost predicate IsInTurn(e: Engine, g: Header, h: Header)
    requires Rooted(g, h.parentHash) && StateAt(e, g, h.parentHash).Ok?
  {
    e.SignerOf(h).Some? && InTurn(StateAt(e, g, h.parentHash).value, h.number, e.SignerOf(h).value)
  }

  /** How many blocks up to `h` were sealed in turn. */
  ghost function InTurnBlocks(e: Engine, g: Header, h: Hash): nat
    requires Verified(e, g, h)
    decreases h
  {
    VerifiedFacts(e, g, h);
    if h.header == g then 0
    else InTurnBlocks(e, g, h.header.parentHash) + if IsInTurn(e, g, h.header) then 1 else 0
  }

  // ----- One header

  /** The extra data is vanity and seal, and at a checkpoint a non-empty list of whole addresses
      between them. */
  ghost predicate HasRightLength(e: Engine, h: Header) {
    if h.number % e.epoch == 0 then exists n: nat {:trigger 20 * n} :: n > 0 && |h.extra| == 32 + 20 * n + 65
    else |h.extra| == 32 + 65
  }

  /** `a` may sign block `number`: it is a signer, and its blocks in the window are old enough. */
  ghost predicate MaySign(s: Snapshot, number: nat, a: Address) {
    a in s.signers && forall b :: b in s.recents && s.recents[b] == a ==> b + |s.signers| / 2 + 1 <= number
  }

  /** `a` may sign the header, whose difficulty is 2 if it is in turn and 1 if not. */
  ghost predicate IsFit(s: Snapshot, h: Header, a: Address) {
    MaySign(s, h.number, a) && h.difficulty == if IsNext(s.signers, h.number, a) then 2 else 1
  }

  /** Exactly the headers that pass, votes and checkpoints included. */
  lemma VerifyHeaderIff(e: Engine, s: Snapshot, h: Header, parent: Option<Header>)
    ensures VerifyHeader(e, s, h, parent) == None <==>
      && HasRightLength(e, h)
      && h.uncleHash == EMPTY_UNCLE_HASH && h.mixDigest == ZERO_HASH
      && (h.nonce == 0 || (h.nonce == 0xffff_ffff_ffff_ffff && h.coinbase != 0))
      && (parent.Some? ==> h.time >= parent.value.time + e.period)
      && e.SignerOf(h).Some? && IsFit(s, h, e.SignerOf(h).value)
  {
    LengthIff(e, h);
    if e.SignerOf(h).Some? {
      FitIff(s, h, e.SignerOf(h).value);
    }
  }

  lemma FitIff(s: Snapshot, h: Header, a: Address)
    ensures IsFit(s, h, a) <==>
      a in s.signers && !HasRecentlySigned(s, h.number, a) && h.difficulty == CalcDifficulty(s, h.number, a)
  {
    InTurnIff(s, h.number, a);
  }

  lemma LengthIff(e: Engine, h: Header)
    ensures ExtraLengthOk(e, h) <==> HasRightLength(e, h)
  {
    if ExtraLengthOk(e, h) {
      var bytes := |h.extra| - 97;
      assert bytes == 20 * (bytes / 20) + bytes % 20;
    }
  }

  /** What verification of one header gives a chain. */
  lemma VerifiedHeaderFacts(e: Engine, s: Snapshot, h: Header, parent: Header)
    requires VerifyHeader(e, s, h, Some(parent)) == None
    ensures e.SignerOf(h).Some? && e.SignerOf(h).value in s.signers
    ensures h.difficulty == if InTurn(s, h.number, e.SignerOf(h).value) then 2 else 1
    ensures h.time >= parent.time + e.period
  {
  }

  lemma VerifiedBlockFacts(e: Engine, g: Header, h: Hash)
    requires Verified(e, g, h) && h.header != g
    ensures Verified(e, g, h.header.parentHash) && h.header.number == h.header.parentHash.header.number + 1
    ensures Rooted(g, h.header.parentHash) && StateAt(e, g, h.header.parentHash).Ok?
    ensures h.header.difficulty == 1 + if IsInTurn(e, g, h.header) then 1 else 0
    ensures h.header.time >= h.header.parentHash.header.time + e.period
  {
    VerifiedFacts(e, g, h);
    VerifiedHeaderFacts(e, StateAt(e, g, h.header.parentHash).value, h.header, h.header.parentHash.header);
  }

  /** A verified chain weighs one per block and one more for each block sealed in turn. */
  lemma {:induction false} VerifiedChainWeight(e: Engine, g: Header, h: Hash)
    requires Verified(e, g, h)
    ensures Rooted(g, h) && Weight(g, h) == GenesisWeight(g) + h.header.number + InTurnBlocks(e, g, h)
    decreases h
  {
    VerifiedFacts(e, g, h);
    if h.header != g {
      VerifiedBlockFacts(e, g, h);
      VerifiedChainWeight(e, g, h.header.parentHash);
    }
  }

  lemma {:induction false} PeriodsAddUp(e: Engine, g: Header, h: Hash)
    requires Verified(e, g, h)
    ensures h.header.time >= g.time + Times(h.header.number, e.period)
    decreases h
  {
    VerifiedFacts(e, g, h);
    if h.header != g {
      VerifiedBlockFacts(e, g, h);
      PeriodsAddUp(e, g, h.header.parentHash);
      OnePeriodLater(g, h.header.parentHash.header, h.header, e.period);
    }
  }

  lemma OnePeriodLater(g: Header, parent: Header, h: Header, period: nat)
    requires h.number == parent.number + 1 && h.time >= parent.time + period
    requires parent.time >= g.time + Times(parent.number, period)
    ensures h.time >= g.time + Times(h.number, period)
  {
  }

  /** `n` periods. */
  function Times(n: nat, period: nat): nat {
    if n == 0 then 0 else Times(n - 1, period) + period
  }

  lemma {:induction false} TimesIsProduct(n: nat, period: nat)
    ensures Times(n, period) == n * period
  {
    if n > 0 {
      TimesIsProduct(n - 1, period);
      assert n * period == (n - 1) * period + period;
    }
  }

  /** The blocks of a verified chain are at least a period apart. */
  lemma VerifiedChainTime(e: Engine, g: Header, h: Hash)
    requires Verified(e, g, h)
    ensures h.header.time >= g.time + h.header.number * e.period
  {
    PeriodsAddUp(e, g, h);
    TimesIsProduct(h.header.number, e.period);
  }

  // ----- Turns

  /** A signer is in turn exactly if it is authorised and its rank among the signers is the block
      number modulo their count. */
  lemma InTurnIff(s: Snapshot, number: nat, a: Address)
    ensures InTurn(s, number, a) <==> IsNext(s.signers, number, a)
  {
    if s.signers != {} {
      TurnIff(s.signers, number, a);
    }
  }

  /** Among any |signers| consecutive numbers every signer is in turn exactly once. */
  lemma EveryoneGetsATurn(s: Snapshot, number: nat, a: Address) returns (m: nat)
    requires a in s.signers
    ensures number <= m < number + |s.signers| && InTurn(s, m, a)
    ensures forall j :: number <= j < number + |s.signers| && InTurn(s, j, a) ==> j == m
  {
    m := OneTurnEach(s.signers, number, a);
  }
}

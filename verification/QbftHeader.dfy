/**
 QBFT block headers: the extra data, the two seal hashes, verification of proposals and of
 committed headers, and sealing.
 */
module QbftHeader {
  import opened Primitives
  import opened Qbft

  const EXTRA_VANITY: nat := 32
  const SEAL_LENGTH: nat := 65

  datatype Istanbul = Istanbul(
    validators: seq<Address>, vote: seq<byte>, round: nat, seal: seq<byte>, committedSeals: seq<seq<byte>>)

  /** What gets signed: a header with both kinds of seal stripped, or, for a commit seal, the hash
      of a header with its committed seals stripped. */
  datatype Digest = ForProposal(header: Header) | ForCommit(hash: Hash)

  /** RLP and ECDSA as the engine uses them. */
  datatype Engine = Engine(
    period: nat,
    encode: Istanbul -> seq<byte>,
    decode: seq<byte> -> Option<Istanbul>,
    sign: (Digest, Address) -> seq<byte>,
    recover: (Digest, seq<byte>) -> Option<Address>)
  {
    /** Decoding undoes encoding, a signature recovers to its signer, and an empty one to nobody. */
    ghost predicate Lawful() {
      && (forall x :: decode(encode(x)) == Some(x))
      && (forall d: Digest, a: Address :: |sign(d, a)| == SEAL_LENGTH && recover(d, sign(d, a)) == Some(a))
      && (forall d: Digest :: recover(d, []) == None)
    }
  }

  // ----- Extra data

  function Padded(vanity: seq<byte>): (r: seq<byte>)
    ensures |r| == EXTRA_VANITY
    ensures |vanity| == EXTRA_VANITY ==> r == vanity
  {
    if |vanity| >= EXTRA_VANITY then vanity[..EXTRA_VANITY]
    else vanity + seq(EXTRA_VANITY - |vanity|, i => 0 as byte)
  }

  function EncodeExtra(e: Engine, vanity: seq<byte>, x: Istanbul): seq<byte> {
    Padded(vanity) + e.encode(x)
  }

  function DecodeExtra(e: Engine, h: Header): Option<Istanbul> {
    if |h.extra| < EXTRA_VANITY then None else e.decode(h.extra[EXTRA_VANITY..])
  }

  /** The header with other Istanbul data behind the same vanity bytes. */
  function WithExtra(e: Engine, h: Header, x: Istanbul): Header
    requires |h.extra| >= EXTRA_VANITY
  {
    h.(extra := EncodeExtra(e, h.extra[..EXTRA_VANITY], x))
  }

  /** Decoding reads back what was encoded, and encoding again starts from the same header. */
  lemma ExtraRoundTrip(e: Engine, h: Header, x: Istanbul, y: Istanbul)
    requires e.Lawful() && |h.extra| >= EXTRA_VANITY
    ensures DecodeExtra(e, WithExtra(e, h, x)) == Some(x)
    ensures |WithExtra(e, h, x).extra| >= EXTRA_VANITY
    ensures WithExtra(e, WithExtra(e, h, x), y) == WithExtra(e, h, y)
  {
    var vanity := h.extra[..EXTRA_VANITY];
    assert WithExtra(e, h, x).extra[EXTRA_VANITY..] == e.encode(x);
    assert WithExtra(e, h, x).extra[..EXTRA_VANITY] == vanity;
  }

  // ----- Seal hashes

  function ProposalSigHash(e: Engine, h: Header): Option<Digest> {
    match DecodeExtra(e, h)
    case None => None
    case Some(x) => Some(ForProposal(WithExtra(e, h, x.(seal := [], committedSeals := []))))
  }

  function CommitSealHash(e: Engine, h: Header): Option<Digest> {
    match DecodeExtra(e, h)
    case None => None
    case Some(x) => Some(ForCommit(HashOf(WithExtra(e, h, x.(committedSeals := [])))))
  }

  function SignerFromHeader(e: Engine, h: Header): Option<Address> {
    match DecodeExtra(e, h)
    case None => None
    case Some(x) =>
      if |x.seal| != SEAL_LENGTH then None else e.recover(ProposalSigHash(e, h).value, x.seal)
  }

  function RecoverCommitSealSigner(e: Engine, h: Header, seal: seq<byte>): Option<Address> {
    match CommitSealHash(e, h)
    case None => None
    case Some(digest) => e.recover(digest, seal)
  }

  function CreateCommitSeal(e: Engine, h: Header, key: Address): Option<seq<byte>> {
    match CommitSealHash(e, h)
    case None => None
    case Some(digest) => Some(e.sign(digest, key))
  }

  function SealHeader(e: Engine, h: Header, key: Address): Option<Header> {
    match DecodeExtra(e, h)
    case None => None
    case Some(x) => Some(WithExtra(e, h, x.(seal := e.sign(ProposalSigHash(e, h).value, key))))
  }

  /** Sealing a header makes its signer recoverable. */
  lemma SealRoundTrip(e: Engine, h: Header, key: Address)
    requires e.Lawful() && DecodeExtra(e, h).Some?
    ensures SignerFromHeader(e, SealHeader(e, h, key).value) == Some(key)
    ensures RecoverCommitSealSigner(e, h, CreateCommitSeal(e, h, key).value) == Some(key)
  {
    var x := DecodeExtra(e, h).value;
    var sig := e.sign(ProposalSigHash(e, h).value, key);
    ExtraRoundTrip(e, h, x.(seal := sig), x.(seal := [], committedSeals := []));
  }

  // ----- What the seals bind

  /** The two headers are the same but for their committed seals, and their proposer seal if `proposal`. */
  ghost predicate SameBlock(e: Engine, h: Header, k: Header, proposal: bool) {
    var x, y := DecodeExtra(e, h), DecodeExtra(e, k);
    && x.Some? && y.Some?
    && k == h.(extra := k.extra)
    && h.extra[..EXTRA_VANITY] == k.extra[..EXTRA_VANITY]
    && y.value == x.value.(committedSeals := y.value.committedSeals,
                           seal := if proposal then y.value.seal else x.value.seal)
  }

  lemma EqualExtra(e: Engine, h: Header, k: Header, x: Istanbul, y: Istanbul)
    requires e.Lawful() && |h.extra| >= EXTRA_VANITY && |k.extra| >= EXTRA_VANITY
    ensures WithExtra(e, h, x) == WithExtra(e, k, y) <==>
      x == y && k == h.(extra := k.extra) && h.extra[..EXTRA_VANITY] == k.extra[..EXTRA_VANITY]
  {
    var a, b := WithExtra(e, h, x), WithExtra(e, k, y);
    ExtraRoundTrip(e, h, x, x);
    ExtraRoundTrip(e, k, y, y);
    assert a.extra[..EXTRA_VANITY] == h.extra[..EXTRA_VANITY];
    assert b.extra[..EXTRA_VANITY] == k.extra[..EXTRA_VANITY];
    if a == b {
      assert h == a.(extra := h.extra) && k == b.(extra := k.extra);
    }
  }

  /** A proposer seal is for one header, whatever its seals: no other header has the same digest. */
  lemma ProposalSealBinds(e: Engine, h: Header, k: Header)
    requires e.Lawful() && DecodeExtra(e, h).Some? && DecodeExtra(e, k).Some?
    ensures ProposalSigHash(e, h) == ProposalSigHash(e, k) <==> SameBlock(e, h, k, true)
  {
    var x, y := DecodeExtra(e, h).value, DecodeExtra(e, k).value;
    EqualExtra(e, h, k, x.(seal := [], committedSeals := []), y.(seal := [], committedSeals := []));
    assert x.(seal := [], committedSeals := []) == y.(seal := [], committedSeals := []) <==>
      y == x.(committedSeals := y.committedSeals, seal := y.seal);
  }

  /** A commit seal is for one proposal, with its proposer seal, and is never a proposer seal's digest. */
  lemma CommitSealBinds(e: Engine, h: Header, k: Header)
    requires e.Lawful() && DecodeExtra(e, h).Some? && DecodeExtra(e, k).Some?
    ensures CommitSealHash(e, h) == CommitSealHash(e, k) <==> SameBlock(e, h, k, false)
    ensures CommitSealHash(e, h) != ProposalSigHash(e, k)
  {
    var x, y := DecodeExtra(e, h).value, DecodeExtra(e, k).value;
    EqualExtra(e, h, k, x.(committedSeals := []), y.(committedSeals := []));
    assert x.(committedSeals := []) == y.(committedSeals := []) <==>
      y == x.(committedSeals := y.committedSeals, seal := x.seal);
  }

  // ----- Committing

  /** The header with the collected seals injected. */
  function CommitHeader(e: Engine, h: Header, seals: seq<seq<byte>>): Option<Header> {
    match DecodeExtra(e, h)
    case None => None
    case Some(x) => Some(WithExtra(e, h, x.(committedSeals := seals)))
  }

  /** Injecting committed seals leaves both seal hashes, and so every signer, as they were. */
  lemma SealsLeaveHashes(e: Engine, h: Header, seals: seq<seq<byte>>)
    requires e.Lawful() && DecodeExtra(e, h).Some?
    ensures
      var final := CommitHeader(e, h, seals).value;
      && DecodeExtra(e, final) == Some(DecodeExtra(e, h).value.(committedSeals := seals))
      && final == h.(extra := final.extra)
      && ProposalSigHash(e, final) == ProposalSigHash(e, h)
      && CommitSealHash(e, final) == CommitSealHash(e, h)
      && SignerFromHeader(e, final) == SignerFromHeader(e, h)
  {
    var x := DecodeExtra(e, h).value;
    var y := x.(committedSeals := seals);
    ExtraRoundTrip(e, h, y, x.(seal := [], committedSeals := []));
    ExtraRoundTrip(e, h, y, x.(committedSeals := []));
    assert y.(seal := [], committedSeals := []) == x.(seal := [], committedSeals := []);
    assert y.(committedSeals := []) == x.(committedSeals := []);
  }

  // ----- Verification

  datatype Error =
    | InvalidUncleHash | InvalidDifficulty | InvalidTimestamp | InvalidExtraData | NoProposer
    | UnauthorizedProposer | InsufficientSeals | BadCommitSeal | UnauthorizedSeal | DuplicateSeal

  function VerifyProposal(e: Engine, validators: set<Address>, h: Header, parent: Option<Header>): Option<Error> {
    if h.uncleHash != EMPTY_UNCLE_HASH then Some(InvalidUncleHash)
    else if h.difficulty != 1 then Some(InvalidDifficulty)
    else if parent.Some? && h.time < parent.value.time + e.period then Some(InvalidTimestamp)
    else if DecodeExtra(e, h) == None then Some(InvalidExtraData)
    else match SignerFromHeader(e, h)
      case None => Some(NoProposer)
      case Some(proposer) => if proposer in validators then None else Some(UnauthorizedProposer)
  }

  /** Exactly the proposals that pass: no uncles, difficulty one, at least a period after the parent, and
      sealed by a validator. */
  lemma VerifyProposalIff(e: Engine, validators: set<Address>, h: Header, parent: Option<Header>)
    ensures VerifyProposal(e, validators, h, parent) == None <==>
      && h.uncleHash == EMPTY_UNCLE_HASH && h.difficulty == 1
      && (parent.Some? ==> h.time >= parent.value.time + e.period)
      && exists a :: a in validators && SignerFromHeader(e, h) == Some(a)
  {
  }

  /** End to end: a header that obeys the other rules and is sealed by `key` passes exactly if `key` is a
      validator. */
  lemma SealedPassesIff(e: Engine, validators: set<Address>, h: Header, parent: Option<Header>, key: Address)
    requires e.Lawful() && DecodeExtra(e, h).Some?
    requires h.uncleHash == EMPTY_UNCLE_HASH && h.difficulty == 1
    requires parent.Some? ==> h.time >= parent.value.time + e.period
    ensures VerifyProposal(e, validators, SealHeader(e, h, key).value, parent) == None <==> key in validators
  {
    var sealed := SealHeader(e, h, key).value;
    SealRoundTrip(e, h, key);
    VerifyProposalIff(e, validators, sealed, parent);
    assert sealed == h.(extra := sealed.extra);
  }

  /** The seal is by one of the validators. */
  predicate IsSealed(e: Engine, validators: set<Address>, h: Header, seal: seq<byte>) {
    var signer := RecoverCommitSealSigner(e, h, seal);
    signer.Some? && signer.value in validators
  }

  /** The seals are by distinct validators. */
  ghost predicate AreSealed(e: Engine, validators: set<Address>, h: Header, seals: seq<seq<byte>>) {
    && (forall i :: 0 <= i < |seals| ==> IsSealed(e, validators, h, seals[i]))
    && (forall i, j :: 0 <= i < j < |seals| ==>
          RecoverCommitSealSigner(e, h, seals[i]) != RecoverCommitSealSigner(e, h, seals[j]))
  }

  /** A committed header: a good proposal with seals by a quorum of distinct validators and no others. */
  ghost predicate IsCommitted(e: Engine, validators: set<Address>, h: Header, parent: Option<Header>) {
    && VerifyProposal(e, validators, h, parent) == None
    && |DecodeExtra(e, h).value.committedSeals| >= Quorum(|validators|)
    && AreSealed(e, validators, h, DecodeExtra(e, h).value.committedSeals)
  }

  method VerifyHeader(e: Engine, validators: set<Address>, h: Header, parent: Option<Header>)
    returns (err: Option<Error>)
    ensures err == None <==> IsCommitted(e, validators, h, parent)
    ensures VerifyProposal(e, validators, h, parent).Some? ==> err == VerifyProposal(e, validators, h, parent)
    ensures err == Some(InsufficientSeals) <==>
      && VerifyProposal(e, validators, h, parent) == None
      && |DecodeExtra(e, h).value.committedSeals| < Quorum(|validators|)
  {
    if h.uncleHash != EMPTY_UNCLE_HASH {
      return Some(InvalidUncleHash);
    }
    if h.difficulty != 1 {
      return Some(InvalidDifficulty);
    }
    if parent.Some? && h.time < parent.value.time + e.period {
      return Some(InvalidTimestamp);
    }
    var x := DecodeExtra(e, h);
    if x == None {
      return Some(InvalidExtraData);
    }
    var proposer := SignerFromHeader(e, h);
    if proposer == None {
      return Some(NoProposer);
    }
    if proposer.value !in validators {
      return Some(UnauthorizedProposer);
    }
    var seals := x.value.committedSeals;
    if |seals| < Quorum(|validators|) {
      return Some(InsufficientSeals);
    }
    var seen: set<Address> := {};
    for i := 0 to |seals|
      invariant AreSealed(e, validators, h, seals[..i])
      invariant forall a :: a in seen <==> exists k :: 0 <= k < i && RecoverCommitSealSigner(e, h, seals[k]) == Some(a)
    {
      var signer := RecoverCommitSealSigner(e, h, seals[i]);
      if signer == None {
        assert !IsSealed(e, validators, h, seals[i]);
        return Some(BadCommitSeal);
      }
      if signer.value !in validators {
        assert !IsSealed(e, validators, h, seals[i]);
        return Some(UnauthorizedSeal);
      }
      if signer.value in seen {
        return Some(DuplicateSeal);
      }
      seen := seen + {signer.value};
    }
    assert seals[..|seals|] == seals;
    return None;
  }

  /** Every accepted header is by a validator, and sealed by a quorum of them. */
  lemma CommittedIsSigned(e: Engine, validators: set<Address>, h: Header, parent: Option<Header>)
    requires IsCommitted(e, validators, h, parent)
    ensures exists a :: a in validators && SignerFromHeader(e, h) == Some(a)
    ensures |SealSigners(e, h)| >= 2 * |validators| / 3 + 1 && SealSigners(e, h) <= validators
  {
    var seals := DecodeExtra(e, h).value.committedSeals;
    VerifyProposalIff(e, validators, h, parent);
    SignersAreDistinct(e, validators, h, seals);
  }

  /** The addresses the committed seals recover to. */
  ghost function SealSigners(e: Engine, h: Header): set<Address>
    requires DecodeExtra(e, h).Some?
  {
    SignersOf(e, h, DecodeExtra(e, h).value.committedSeals)
  }

  ghost function SignersOf(e: Engine, h: Header, seals: seq<seq<byte>>): set<Address> {
    set i | 0 <= i < |seals| && RecoverCommitSealSigner(e, h, seals[i]).Some? ::
      RecoverCommitSealSigner(e, h, seals[i]).value
  }

  lemma {:induction false} SignersAreDistinct(e: Engine, validators: set<Address>, h: Header, seals: seq<seq<byte>>)
    requires AreSealed(e, validators, h, seals)
    ensures |SignersOf(e, h, seals)| == |seals| && SignersOf(e, h, seals) <= validators
  {
    if seals == [] {
      assert SignersOf(e, h, seals) == {};
    } else {
      var n := |seals| - 1;
      var front, last := seals[..n], RecoverCommitSealSigner(e, h, seals[n]).value;
      SignersAreDistinct(e, validators, h, front);
      assert forall i :: 0 <= i < n ==> front[i] == seals[i];
      assert SignersOf(e, h, seals) == SignersOf(e, h, front) + {last};
    }
  }

  // ----- Re-proposing a prepared block in a later round

  function ReusePrepared(e: Engine, prepared: Header, round: nat, key: Address): Option<Header> {
    match DecodeExtra(e, prepared)
    case None => None
    case Some(x) => SealHeader(e, WithExtra(e, prepared, x.(round := round, seal := [], committedSeals := [])), key)
  }

  /** The re-sealed proposal differs from the prepared header only in its round and its seals, and
      it is a good proposal by the new proposer if the prepared header was one. */
  lemma ReuseKeepsBlock(e: Engine, prepared: Header, round: nat, key: Address)
    requires e.Lawful() && DecodeExtra(e, prepared).Some?
    ensures
      var x, h := DecodeExtra(e, prepared).value, ReusePrepared(e, prepared, round, key);
      && h.Some?
      && h.value == prepared.(extra := h.value.extra)
      && |h.value.extra| >= EXTRA_VANITY && h.value.extra[..EXTRA_VANITY] == prepared.extra[..EXTRA_VANITY]
      && DecodeExtra(e, h.value).Some?
      && var y := DecodeExtra(e, h.value).value;
      y == x.(round := round, seal := y.seal, committedSeals := [])
      && SignerFromHeader(e, h.value) == Some(key)
    ensures forall validators, parent ::
      VerifyProposal(e, validators, prepared, parent) == None && key in validators ==>
        VerifyProposal(e, validators, ReusePrepared(e, prepared, round, key).value, parent) == None
  {
    var x := DecodeExtra(e, prepared).value.(round := round, seal := [], committedSeals := []);
    var unsealed := WithExtra(e, prepared, x);
    ExtraRoundTrip(e, prepared, x, x);
    SealRoundTrip(e, unsealed, key);
    var y := x.(seal := e.sign(ProposalSigHash(e, unsealed).value, key));
    ExtraRoundTrip(e, prepared, x, y);
    ExtraRoundTrip(e, prepared, y, y);
    assert WithExtra(e, prepared, y).extra[..EXTRA_VANITY] == prepared.extra[..EXTRA_VANITY];
  }
}

/**
 The Clique signer snapshot (EIP-225) as values and functions: extra-data layout, vote
 bookkeeping, and one header applied to a snapshot.  Module CliqueApply holds the in-place
 form that this module specifies.
 */
module Clique {
  import opened Primitives
  import opened Turns

  const EXTRA_VANITY := 32
  const EXTRA_SEAL := 65
  const ADDRESS_LENGTH := 20
  const NONCE_AUTH: nat := 0xffff_ffff_ffff_ffff
  const NONCE_DROP: nat := 0
  const DIFF_IN_TURN := 2
  const DIFF_NO_TURN := 1

  /** `ecrecover` is the address recovered from a header's seal, or None when recovery fails. */
  datatype Engine = Engine(period: nat, epoch: pos, ecrecover: Header -> Option<Address>) {

    function SignerOf(h: Header): Option<Address> {
      if |h.extra| < EXTRA_SEAL then None else ecrecover(h)
    }

    predicate IsEpoch(number: nat) {
      number % epoch == 0
    }
  }

  datatype Vote = Vote(signer: Address, block: nat, address: Address, authorize: bool)

  datatype Tally = Tally(authorize: bool, votes: nat)

  type TallyMap = map<Address, Tally>

  datatype Snapshot = Snapshot(
    number: nat,
    hash: Hash,
    signers: set<Address>,
    recents: map<nat, Address>,
    votes: seq<Vote>,
    tally: TallyMap)

  datatype Error =
    | ShortExtra | NoSigners | RaggedSigners
    | NotNext | NotContiguous
    | BadSeal | Unauthorized | RecentlySigned

  // ----- Extra data

  function BigEndian(bytes: seq<byte>): nat {
    if bytes == [] then 0
    else 256 * BigEndian(bytes[..|bytes| - 1]) + bytes[|bytes| - 1]
  }

  function Pow256(k: nat): nat {
    if k == 0 then 1 else 256 * Pow256(k - 1)
  }

  lemma {:induction false} BigEndianBound(bytes: seq<byte>)
    ensures BigEndian(bytes) < Pow256(|bytes|)
  {
    if bytes != [] {
      BigEndianBound(bytes[..|bytes| - 1]);
    }
  }

  lemma AddressSpaceIs20Bytes()
    ensures Pow256(ADDRESS_LENGTH) == ADDRESS_SPACE
  {
    assert Pow256(4) == 0x1_0000_0000;
    assert Pow256(8) == 256 * (256 * (256 * (256 * Pow256(4))));
    assert Pow256(12) == 256 * (256 * (256 * (256 * Pow256(8))));
    assert Pow256(16) == 256 * (256 * (256 * (256 * Pow256(12))));
    assert Pow256(20) == 256 * (256 * (256 * (256 * Pow256(16))));
  }

  function Zeros(n: nat): (z: seq<byte>)
    ensures |z| == n
  {
    seq(n, _ => 0)
  }

  /** The address in the first 20 bytes of a chunk; missing bytes are zero. */
  function AddressIn(chunk: seq<byte>): Address
    requires |chunk| <= ADDRESS_LENGTH
  {
    var full := chunk + Zeros(ADDRESS_LENGTH - |chunk|);
    BigEndianBound(full);
    AddressSpaceIs20Bytes();
    BigEndian(full)
  }

  function FirstChunk(data: seq<byte>): (n: nat)
    ensures n <= |data| && n <= ADDRESS_LENGTH
    ensures data != [] ==> 0 < n
  {
    if |data| < ADDRESS_LENGTH then |data| else ADDRESS_LENGTH
  }

  /** The set of addresses packed in a checkpoint's signer section. */
  function SignersIn(data: seq<byte>): set<Address> {
    if data == [] then {}
    else {AddressIn(data[..FirstChunk(data)])} + SignersIn(data[FirstChunk(data)..])
  }

  function SignerSection(extra: seq<byte>): seq<byte>
    requires EXTRA_VANITY + EXTRA_SEAL <= |extra|
  {
    extra[EXTRA_VANITY .. |extra| - EXTRA_SEAL]
  }

  /** The snapshot an epoch header stands for; also how the genesis snapshot is built. */
  function CheckpointSnapshot(h: Header): Result<Snapshot, Error> {
    if |h.extra| < EXTRA_VANITY + EXTRA_SEAL then Err(ShortExtra)
    else
      var data := SignerSection(h.extra);
      if |data| == 0 then Err(NoSigners)
      else if |data| % ADDRESS_LENGTH != 0 then Err(RaggedSigners)
      else Ok(Snapshot(h.number, HashOf(h), SignersIn(data), map[], [], map[]))
  }

  // ----- Queries

  function Limit(signers: set<Address>): pos {
    |signers| / 2 + 1
  }

  function SignerList(s: Snapshot): seq<Address> {
    Ascending(s.signers)
  }

  predicate InTurn(s: Snapshot, number: nat, signer: Address) {
    s.signers != {} && TurnAt(s.signers, number) == signer
  }

  predicate HasRecentlySigned(s: Snapshot, number: nat, signer: Address) {
    exists b :: b in s.recents && s.recents[b] == signer && b + Limit(s.signers) > number
  }

  predicate ValidVote(s: Snapshot, address: Address, authorize: bool) {
    (authorize && address !in s.signers) || (!authorize && address in s.signers)
  }

  // ----- Votes and tallies

  function Cast(t: TallyMap, a: Address, authorize: bool): TallyMap {
    if a !in t || t[a].authorize != authorize then t[a := Tally(authorize, 1)]
    else t[a := Tally(authorize, t[a].votes + 1)]
  }

  function Uncast(t: TallyMap, a: Address, authorize: bool): TallyMap {
    if a !in t || t[a].authorize != authorize then t
    else if t[a].votes > 1 then t[a := Tally(authorize, t[a].votes - 1)]
    else t - {a}
  }

  function Keep(votes: seq<Vote>, p: Vote -> bool): seq<Vote> {
    if votes == [] then []
    else
      var n := |votes| - 1;
      Keep(votes[..n], p) + if p(votes[n]) then [votes[n]] else []
  }

  function NotBy(who: Address): Vote -> bool {
    (v: Vote) => v.signer != who
  }

  function For(a: Address): Vote -> bool {
    (v: Vote) => v.address == a
  }

  function NotFor(a: Address): Vote -> bool {
    (v: Vote) => v.address != a
  }

  function UncastIfBy(t: TallyMap, v: Vote, who: Address): TallyMap {
    if v.signer == who then Uncast(t, v.address, v.authorize) else t
  }

  /** The tally after every vote cast by `who` has been taken back, first vote first. */
  function UncastBy(t: TallyMap, votes: seq<Vote>, who: Address): TallyMap {
    if votes == [] then t
    else
      var n := |votes| - 1;
      UncastIfBy(UncastBy(t, votes[..n], who), votes[n], who)
  }

  lemma KeepNext(votes: seq<Vote>, p: Vote -> bool, m: nat)
    requires m < |votes|
    ensures Keep(votes[..m + 1], p) == Keep(votes[..m], p) + if p(votes[m]) then [votes[m]] else []
  {
    assert votes[..m + 1][..m] == votes[..m];
  }

  lemma UncastByNext(t: TallyMap, votes: seq<Vote>, who: Address, m: nat)
    requires m < |votes|
    ensures UncastBy(t, votes[..m + 1], who) == UncastIfBy(UncastBy(t, votes[..m], who), votes[m], who)
  {
    assert votes[..m + 1][..m] == votes[..m];
  }

  /** Index of the first vote by `signer` on `candidate`, or the length of the list. */
  function FirstVote(votes: seq<Vote>, signer: Address, candidate: Address): (k: nat)
    ensures k <= |votes|
    ensures k < |votes| ==> votes[k].signer == signer && votes[k].address == candidate
    ensures forall i :: 0 <= i < k ==> votes[i].signer != signer || votes[i].address != candidate
  {
    if votes == [] then 0
    else
      var n := |votes| - 1;
      var k := FirstVote(votes[..n], signer, candidate);
      if k < n then k
      else if votes[n].signer == signer && votes[n].address == candidate then n
      else n + 1
  }

  function Discard(s: Snapshot, signer: Address, candidate: Address): Snapshot {
    var i := FirstVote(s.votes, signer, candidate);
    if i == |s.votes| then s
    else s.(votes := s.votes[..i] + s.votes[i + 1..],
            tally := Uncast(s.tally, candidate, s.votes[i].authorize))
  }

  function WithoutSigner(recents: map<nat, Address>, a: Address): map<nat, Address> {
    map b | b in recents && recents[b] != a :: recents[b]
  }

  /** A candidate's vote has passed: change the signer set and forget the candidate's votes. */
  function Resolve(s: Snapshot, candidate: Address, authorize: bool): Snapshot {
    var t :=
      if authorize then s.(signers := s.signers + {candidate})
      else s.(signers := s.signers - {candidate},
              recents := WithoutSigner(s.recents, candidate),
              votes := Keep(s.votes, NotBy(candidate)),
              tally := UncastBy(s.tally, s.votes, candidate));
    t.(votes := Keep(t.votes, NotFor(candidate)), tally := t.tally - {candidate})
  }

  function Register(s: Snapshot, v: Vote): Snapshot {
    if !ValidVote(s, v.address, v.authorize) then s
    else
      var t := s.(votes := s.votes + [v], tally := Cast(s.tally, v.address, v.authorize));
      if t.tally[v.address].votes > |t.signers| / 2 then Resolve(t, v.address, v.authorize) else t
  }

  predicate IsVote(e: Engine, h: Header) {
    h.coinbase != ZERO_ADDRESS && (h.nonce == NONCE_AUTH || h.nonce == NONCE_DROP) && !e.IsEpoch(h.number)
  }

  function VoteIn(h: Header, signer: Address): Vote {
    Vote(signer, h.number, h.coinbase, h.nonce == NONCE_AUTH)
  }

  function ProcessVote(e: Engine, s: Snapshot, h: Header, signer: Address): Snapshot {
    if !IsVote(e, h) then s else Register(Discard(s, signer, h.coinbase), VoteIn(h, signer))
  }

  // ----- One header

  /** At an epoch boundary the header's own signer list replaces the signer set. */
  function AtBoundary(e: Engine, s: Snapshot, h: Header): Result<Snapshot, Error> {
    if !e.IsEpoch(h.number) then Ok(s)
    else if |h.extra| < EXTRA_VANITY + EXTRA_SEAL then Err(ShortExtra)
    else Ok(s.(signers := SignersIn(SignerSection(h.extra)), votes := [], tally := map[]))
  }

  function Evict(s: Snapshot, number: nat): Snapshot {
    if number >= Limit(s.signers) then s.(recents := s.recents - {number - Limit(s.signers)}) else s
  }

  function Admit(e: Engine, s: Snapshot, h: Header): Result<Snapshot, Error> {
    match e.SignerOf(h)
    case None => Err(BadSeal)
    case Some(signer) =>
      if signer !in s.signers then Err(Unauthorized)
      else if signer in s.recents.Values then Err(RecentlySigned)
      else Ok(s.(recents := s.recents[h.number := signer]))
  }

  function Step(e: Engine, s: Snapshot, h: Header): Result<Snapshot, Error> {
    var s1 :- AtBoundary(e, s, h);
    var s2 :- Admit(e, Evict(s1, h.number), h);
    Ok(ProcessVote(e, s2, h, e.SignerOf(h).value).(number := h.number, hash := HashOf(h)))
  }

  // ----- A run of headers

  function Replay(e: Engine, s: Snapshot, headers: seq<Header>): Result<Snapshot, Error> {
    if headers == [] then Ok(s)
    else
      var n := |headers| - 1;
      var t :- Replay(e, s, headers[..n]);
      Step(e, t, headers[n])
  }

  predicate Contiguous(number: nat, headers: seq<Header>) {
    forall k :: 0 <= k < |headers| ==> headers[k].number == number + 1 + k
  }

  function Applied(e: Engine, s: Snapshot, headers: seq<Header>): Result<Snapshot, Error> {
    if headers == [] then Ok(s)
    else if headers[0].number != s.number + 1 then Err(NotNext)
    else if !Contiguous(s.number, headers) then Err(NotContiguous)
    else Replay(e, s, headers)
  }

  // ----- Header verification

  datatype HeaderError =
    | InvalidExtraData | InvalidUncleHash | InvalidNonce | InvalidVoteAddress | InvalidMixDigest
    | InvalidDifficulty | InvalidTimestamp | UnrecoverableSigner | UnauthorizedSigner
    | SignedRecently | WrongDifficulty

  function CalcDifficulty(s: Snapshot, number: nat, signer: Address): nat {
    if InTurn(s, number, signer) then DIFF_IN_TURN else DIFF_NO_TURN
  }

  predicate ExtraLengthOk(e: Engine, h: Header) {
    && EXTRA_VANITY + EXTRA_SEAL <= |h.extra|
    && var signerBytes := |h.extra| - EXTRA_VANITY - EXTRA_SEAL;
    if e.IsEpoch(h.number) then signerBytes != 0 && signerBytes % ADDRESS_LENGTH == 0
    else signerBytes == 0
  }

  function VerifyHeader(e: Engine, s: Snapshot, h: Header, parent: Option<Header>): Option<HeaderError> {
    if !ExtraLengthOk(e, h) then Some(InvalidExtraData)
    else if h.uncleHash != EMPTY_UNCLE_HASH then Some(InvalidUncleHash)
    else if h.nonce != NONCE_AUTH && h.nonce != NONCE_DROP then Some(InvalidNonce)
    else if h.nonce == NONCE_AUTH && h.coinbase == ZERO_ADDRESS then Some(InvalidVoteAddress)
    else if h.mixDigest != ZERO_HASH then Some(InvalidMixDigest)
    else if h.difficulty != DIFF_IN_TURN && h.difficulty != DIFF_NO_TURN then Some(InvalidDifficulty)
    else if parent.Some? && h.time < parent.value.time + e.period then Some(InvalidTimestamp)
    else match e.SignerOf(h)
      case None => Some(UnrecoverableSigner)
      case Some(signer) =>
        if signer !in s.signers then Some(UnauthorizedSigner)
        else if HasRecentlySigned(s, h.number, signer) then Some(SignedRecently)
        else if h.difficulty != CalcDifficulty(s, h.number, signer) then Some(WrongDifficulty)
        else None
  }
}

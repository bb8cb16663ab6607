/**
 The driver of one block's consensus: it runs a fresh core per round, replays the backlog into it,
 proposes when it is this validator's turn, feeds it messages and the round timer, and moves on
 when the core says so.
 */
module QbftDriver {
  import opened Primitives
  import opened Qbft
  import opened QbftCore
  import opened QbftRounds
  import opened QbftNetwork
  import opened QbftCarryOver
  import opened QbftHistory
  import QbftHeader

  datatype Block = Block(header: Header, payload: seq<byte>)

  /** The driver's surroundings: re-sealing a prepared header for a round, decoding a payload, and
      building a fresh block; None is a failure. */
  datatype Shop = Shop(
    reuse: (Header, nat) -> Option<Header>,
    decodes: seq<byte> -> bool,
    build: nat -> Option<Block>)

  datatype Result = Stopped | Done(header: Header, payload: seq<byte>) | Failed | Crashed

  /** The text "null": how a missing payload is written. */
  const NULL_PAYLOAD: seq<byte> := [110, 117, 108, 108]

  /** What to propose: the prepared block of the last round change, or else a fresh one. */
  function Choose(shop: Shop, last: Option<Decision>, round: nat): Option<Block>
    requires last.Some? ==> last.value.StartRound?
  {
    if round == 0 || last == None || last.value.prepared == None then shop.build(round)
    else
      var d := last.value;
      match shop.reuse(d.prepared.value, round)
      case None => shop.build(round)
      case Some(h) =>
        if |d.preparedPayload| == 0 then Some(Block(h, NULL_PAYLOAD))
        else if shop.decodes(d.preparedPayload) then Some(Block(h, d.preparedPayload))
        else shop.build(round)
  }

  /** `h` is block `b` proposed again in `round`: the same but for its round and seals. */
  ghost predicate IsResealed(e: QbftHeader.Engine, b: Header, h: Header, round: nat) {
    && h == b.(extra := h.extra)
    && var x, y := QbftHeader.DecodeExtra(e, b), QbftHeader.DecodeExtra(e, h);
    x.Some? && y.Some? && y.value == x.value.(round := round, seal := y.value.seal, committedSeals := [])
  }

  /** After a round change that carries a prepared block, the next proposal is that block: the same
      payload, and the same header but for its round and seals. */
  lemma NextProposalIsPrepared(shop: Shop, e: QbftHeader.Engine, key: Address, d: Decision, round: nat)
    requires e.Lawful() && forall h, r :: shop.reuse(h, r) == QbftHeader.ReusePrepared(e, h, r, key)
    requires d.StartRound? && round > 0 && d.prepared.Some? && QbftHeader.DecodeExtra(e, d.prepared.value).Some?
    requires |d.preparedPayload| > 0 && shop.decodes(d.preparedPayload)
    ensures
      var b := Choose(shop, Some(d), round);
      b.Some? && b.value.payload == d.preparedPayload && IsResealed(e, d.prepared.value, b.value.header, round)
  {
    QbftHeader.ReuseKeepsBlock(e, d.prepared.value, round, key);
  }

  /** A core and its life so far. */
  ghost predicate Lived(core: Core, ins: seq<Input>, os: seq<Outcome>)
    reads core
  {
    core.Valid() && IsLife(core.p, ins, os) && core.Now() == Before(os, |os|)
  }

  lemma LifeGoesOn(p: Params, ins: seq<Input>, os: seq<Outcome>, i: Input, o: Outcome)
    requires IsLife(p, ins, os) && Takes(p, Before(os, |os|), i, o)
    ensures IsLife(p, ins + [i], os + [o]) && Before(os + [o], |os + [o]|) == o.state
  {
    forall k | 0 <= k < |os + [o]|
      ensures IsTaken(p, ins + [i], os + [o], k)
    {
      assert Before(os + [o], k) == Before(os, k);
      if k < |os| {
        assert IsTaken(p, ins, os, k);
      }
    }
  }

  /** Besides the timer, only messages whose round changes are authentic reach a core. */
  predicate IsEvent(p: Params, i: Input) {
    i.Timer? || (i.Message? && Authentic(p, i.m))
  }

  /** Giving the event to the core would end the process. */
  predicate Crashes(core: Core, i: Input)
    reads core
  {
    i.Message? && Panics(core.p, core.Now(), i.m)
  }

  method Feed(core: Core, i: Input, ghost ins: seq<Input>, ghost os: seq<Outcome>)
    returns (ds: seq<Decision>, ghost ins': seq<Input>, ghost os': seq<Outcome>)
    requires Lived(core, ins, os) && IsEvent(core.p, i) && !Crashes(core, i)
    modifies core
    ensures Lived(core, ins', os')
    ensures ins' == ins + [i] && os' == os + [Outcome(core.Now(), ds)]
  {
    if i.Timer? {
      ds := core.Timeout();
    } else {
      ds := core.HandleMsg(i.m);
    }
    ins', os' := ins + [i], os + [Outcome(core.Now(), ds)];
    LifeGoesOn(core.p, ins, os, i, Outcome(core.Now(), ds));
  }

  /** The first decision that ends a round, if any. */
  function Verdict(ds: seq<Decision>): (r: Option<Decision>)
    ensures r.Some? ==> r.value in ds && !r.value.Broadcast?
    ensures r == None ==> forall d :: d in ds ==> d.Broadcast?
  {
    if ds == [] then None
    else if ds[0].Broadcast? then Verdict(ds[1..])
    else Some(ds[0])
  }

  /** How a round ends: the proposer has nothing to propose, the core decides, a message would end the
      process, or the events run out. */
  datatype Ending = Failure | Decided(d: Decision) | Panic | Dry

  /** From outcome `n` on, only the last can end the round, and does if it is decided. */
  ghost predicate IsUndecided(os: seq<Outcome>, n: nat, end: Ending) {
    && (forall k :: n <= k < |os| - 1 ==> Verdict(os[k].decisions) == None)
    && (|os| > n ==> Verdict(os[|os| - 1].decisions) == if end.Decided? then Some(end.d) else None)
  }

  /** After the first `m` events, in state `s`, there is reason for the round to end as it does. */
  predicate IsOver(p: Params, s: State, events: seq<Input>, m: nat, end: Ending)
    requires m <= |events|
  {
    match end
    case Failure => false
    case Decided(_) => m > 0
    case Panic => m < |events| && events[m].Message? && Panics(p, s, events[m].m)
    case Dry => m == |events|
  }

  /** Feeds events to the core in order until one ends the round, or the process. */
  method RoundLoop(core: Core, events: seq<Input>, ghost ins: seq<Input>, ghost os: seq<Outcome>)
    returns (end: Ending, ghost ins': seq<Input>, ghost os': seq<Outcome>, ghost m: nat)
    requires Lived(core, ins, os) && forall i :: i in events ==> IsEvent(core.p, i)
    modifies core
    ensures Lived(core, ins', os')
    ensures m <= |events| && ins' == ins + events[..m] && os <= os'
    ensures IsUndecided(os', |os|, end) && IsOver(core.p, core.Now(), events, m, end)
  {
    end, ins', os', m := Dry, ins, os, 0;
    for k := 0 to |events|
      invariant m == k && Lived(core, ins', os') && ins' == ins + events[..m]
      invariant os <= os' && |os'| == |os| + m && end == Dry
      invariant forall i :: |os| <= i < |os'| ==> Verdict(os'[i].decisions) == None
    {
      if Crashes(core, events[k]) {
        end := Panic;
        return;
      }
      var ds;
      ds, ins', os' := Feed(core, events[k], ins', os');
      assert events[..k + 1] == events[..k] + [events[k]];
      m := k + 1;
      var verdict := Verdict(ds);
      if verdict.Some? {
        end := Decided(verdict.value);
        return;
      }
    }
  }

  /** The messages buffered for a round, as inputs. */
  function Waiting(backlog: map<nat, seq<Incoming>>, round: nat): seq<Input> {
    var ms := if round in backlog then backlog[round] else [];
    seq(|ms|, i requires 0 <= i < |ms| => Message(ms[i]))
  }

  /** Replays the previous core's early proposals into the new core, and drops what it decides. */
  method ReplayBacklog(prev: Core, core: Core, ghost pins: seq<Input>, ghost pos: seq<Outcome>)
    returns (ghost ins: seq<Input>, ghost os: seq<Outcome>)
    requires Lived(prev, pins, pos) && Lived(core, [], []) && prev != core
    modifies prev, core
    ensures Lived(core, ins, os) && ins == Waiting(old(prev.backlog), core.p.round)
    ensures prev.backlog == old(prev.backlog) - {core.p.round}
  {
    LifeKeepsBacklog(prev.p, pins, pos, |pos|);
    ghost var all := Waiting(prev.backlog, core.p.round);
    var ms := prev.BacklogForRound(core.p.round);
    assert forall m :: m in ms ==> IsEarly(prev.p, core.p.round, m);
    ins, os := [], [];
    for k := 0 to |ms|
      invariant Lived(core, ins, os) && ins == all[..k]
      invariant prev.backlog == old(prev.backlog) - {core.p.round}
    {
      assert IsEarly(prev.p, core.p.round, ms[k]);
      var ds;
      ds, ins, os := Feed(core, Message(ms[k]), ins, os);
    }
  }

  // ----- What a validator proposes

  /** A validator's place in the consensus on one block. */
  datatype Seat = Seat(me: Address, sequence: nat, validators: set<Address>, cfg: Config, shop: Shop) {
    /** The parameters of the core for a round. */
    function At(round: nat): Params {
      Params(sequence, round, Quorum(|validators|), validators, cfg)
    }
  }

  /** It is this validator's turn to propose. */
  predicate IsTurn(seat: Seat, round: nat) {
    seat.validators != {} && Leader(seat.validators, seat.sequence, round) == seat.me
  }

  function Certificate(last: Option<Decision>): seq<Signed>
    requires last.Some? ==> last.value.StartRound?
  {
    if last.Some? then last.value.rcc else []
  }

  /** What this validator starts the round with: its proposal, if it is its turn and it has one. */
  function Opening(seat: Seat, round: nat, last: Option<Decision>): seq<Input>
    requires last.Some? ==> last.value.StartRound?
  {
    if !IsTurn(seat, round) then []
    else match Choose(seat.shop, last, round)
      case None => []
      case Some(b) => [Proposing(b.header, b.payload, Certificate(last))]
  }

  /** Starts the core as the proposer of block `b`. */
  method Propose(core: Core, b: Block, rcc: seq<Signed>, ghost ins: seq<Input>, ghost os: seq<Outcome>)
    returns (ds: seq<Decision>, ghost ins': seq<Input>, ghost os': seq<Outcome>)
    requires Lived(core, ins, os)
    modifies core
    ensures Lived(core, ins', os') && ins' == ins + [Proposing(b.header, b.payload, rcc)]
    ensures |ds| == 2 && ds[0] == Broadcast(Proposal(core.p.Here(), Some(b.header), b.payload, rcc))
  {
    ds := core.StartProposer(b.header, b.payload, rcc);
    ins', os' := ins + [Proposing(b.header, b.payload, rcc)], os + [Outcome(core.Now(), ds)];
    LifeGoesOn(core.p, ins, os, Proposing(b.header, b.payload, rcc), Outcome(core.Now(), ds));
  }

  /** What the last round leaves for the next. */
  ghost predicate Follows(seat: Seat, round: nat, last: Option<Decision>) {
    && (round > 0 ==> last.Some?)
    && (last.Some? ==> last.value.StartRound? && last.value.round == round)
    && (last.Some? ==> IsCertificate(seat.At(round), last.value.rcc))
  }

  // ----- Rounds

  /** A fresh core for a round, with the previous core's backlog replayed. */
  method OpenRound(seat: Seat, round: nat, prev: Core?, ghost pins: seq<Input>, ghost pos: seq<Outcome>)
    returns (core: Core, ghost ins: seq<Input>, ghost os: seq<Outcome>)
    requires prev != null ==> Lived(prev, pins, pos)
    modifies prev
    ensures fresh(core) && core.p == seat.At(round) && Lived(core, ins, os)
    ensures ins == if prev != null then Waiting(Before(pos, |pos|).backlog, round) else []
  {
    core := new Core(seat.sequence, round, Ascending(seat.validators), Quorum(|seat.validators|), seat.cfg);
    assert core.p.validators == seat.validators;
    ins, os := [], [];
    if prev != null {
      ins, os := ReplayBacklog(prev, core, pins, pos);
    }
  }

  /** Proposes if it is this validator's turn. */
  method TakeTurn(core: Core, seat: Seat, round: nat, last: Option<Decision>,
                  ghost ins: seq<Input>, ghost os: seq<Outcome>)
    returns (failed: bool, ghost opening: seq<Input>, ghost ins': seq<Input>, ghost os': seq<Outcome>)
    requires Lived(core, ins, os) && (last.Some? ==> last.value.StartRound?)
    modifies core
    ensures Lived(core, ins', os') && ins' == ins + opening && opening == Opening(seat, round, last)
    ensures failed <==> IsTurn(seat, round) && Choose(seat.shop, last, round) == None
  {
    failed, opening, ins', os' := false, Opening(seat, round, last), ins, os;
    if seat.validators == {} || Leader(seat.validators, seat.sequence, round) != seat.me {
      return;
    }
    var b := Choose(seat.shop, last, round);
    if b == None {
      failed := true;
      return;
    }
    var ds;
    ds, ins', os' := Propose(core, b.value, Certificate(last), ins, os);
  }

  /** What happened in a round: the decision that started it, this validator's proposal if any, the life
      of its core, how many of its events the core was given, and how it ended. */
  datatype Log = Log(
    round: nat, last: Option<Decision>, opening: seq<Input>, ins: seq<Input>, os: seq<Outcome>, fed: nat, end: Ending)

  /** A round as it should go: the core is given the backlog `waiting`, then this validator's proposal if
      it is its turn, then the events up to the first that ends the round. */
  ghost predicate IsRound(seat: Seat, waiting: seq<Input>, events: seq<Input>, log: Log) {
    forall c: Clause :: Satisfies(seat, waiting, events, log, c)
  }

  datatype Clause = Cause | Turn | Life | Feeding | Silence | Reason

  ghost predicate Satisfies(seat: Seat, waiting: seq<Input>, events: seq<Input>, log: Log, c: Clause) {
    match c
    case Cause => Follows(seat, log.round, log.last)
    case Turn => Follows(seat, log.round, log.last) && log.opening == Opening(seat, log.round, log.last)
    case Life => IsLife(seat.At(log.round), log.ins, log.os)
    case Feeding => log.fed <= |events| && log.ins == waiting + log.opening + events[..log.fed]
    case Silence => IsUndecided(log.os, |waiting + log.opening|, log.end)
    case Reason =>
      if IsAtLoss(seat, log) then log.end == Failure && log.fed == 0
      else log.fed <= |events| && IsOver(seat.At(log.round), Before(log.os, |log.os|), events, log.fed, log.end)
  }

  /** It is this validator's turn, and it has nothing to propose. */
  predicate IsAtLoss(seat: Seat, log: Log) {
    && (log.last.Some? ==> log.last.value.StartRound?)
    && IsTurn(seat, log.round) && Choose(seat.shop, log.last, log.round) == None
  }

  lemma RoundHolds(seat: Seat, waiting: seq<Input>, events: seq<Input>, log: Log)
    requires Follows(seat, log.round, log.last) && log.opening == Opening(seat, log.round, log.last)
    requires IsLife(seat.At(log.round), log.ins, log.os)
    requires log.fed <= |events| && log.ins == waiting + log.opening + events[..log.fed]
    requires IsUndecided(log.os, |waiting + log.opening|, log.end)
    requires IsAtLoss(seat, log) ==> log.end == Failure && log.fed == 0
    requires !IsAtLoss(seat, log) ==> IsOver(seat.At(log.round), Before(log.os, |log.os|), events, log.fed, log.end)
    ensures IsRound(seat, waiting, events, log)
  {
  }

  /** One round: a fresh core, the backlog, a proposal if it is this validator's turn, the events. */
  method RunRound(seat: Seat, round: nat, last: Option<Decision>, prev: Core?, events: seq<Input>,
                  ghost pins: seq<Input>, ghost pos: seq<Outcome>)
    returns (core: Core, end: Ending, ghost log: Log)
    requires prev != null ==> Lived(prev, pins, pos)
    requires forall i :: i in events ==> IsEvent(seat.At(round), i)
    requires Follows(seat, round, last)
    modifies prev
    ensures fresh(core) && core.p == seat.At(round) && Lived(core, log.ins, log.os)
    ensures log == Log(round, last, log.opening, log.ins, log.os, log.fed, end)
    ensures IsRound(seat, if prev != null then Waiting(Before(pos, |pos|).backlog, round) else [], events, log)
  {
    ghost var ins, os, m;
    core, ins, os := OpenRound(seat, round, prev, pins, pos);
    ghost var waiting, opening := ins, [];
    var failed;
    failed, opening, ins, os := TakeTurn(core, seat, round, last, ins, os);
    end, m := Failure, 0;
    if !failed {
      end, ins, os, m := RoundLoop(core, events, ins, os);
    }
    log := Log(round, last, opening, ins, os, m, end);
    RoundHolds(seat, waiting, events, log);
  }

  // ----- Instances

  /** The next round starts with the messages the core before it kept for it. */
  ghost function Kept(logs: seq<Log>, k: nat): seq<Input>
    requires k < |logs|
  {
    if k == 0 then [] else Waiting(Before(logs[k - 1].os, |logs[k - 1].os|).backlog, logs[k].round)
  }

  /** Round `k` of the instance is in order: the first is round 0, and each other is the one that the
      core before it decided to start. */
  ghost predicate IsRoundOf(seat: Seat, streams: seq<seq<Input>>, logs: seq<Log>, k: nat)
    requires k < |logs| <= |streams|
  {
    IsRound(seat, Kept(logs, k), streams[k], logs[k]) && IsLinked(logs, k)
  }

  predicate IsLinked(logs: seq<Log>, k: nat)
    requires k < |logs|
  {
    if k == 0 then logs[k].round == 0 && logs[k].last == None
    else
      && logs[k - 1].end.Decided? && logs[k - 1].end.d.StartRound?
      && logs[k].round == logs[k - 1].end.d.round && logs[k].last == Some(logs[k - 1].end.d)
  }

  /** The rounds run so far. */
  ghost predicate IsRun(seat: Seat, streams: seq<seq<Input>>, logs: seq<Log>) {
    |logs| <= |streams| && forall k :: 0 <= k < |logs| ==> IsRoundOf(seat, streams, logs, k)
  }

  /** The payload of a decided block can be imported. */
  predicate IsReadable(shop: Shop, payload: seq<byte>) {
    |payload| == 0 || shop.decodes(payload)
  }

  /** The result that the end of the last round calls for: a decided block, if its payload is readable. */
  predicate IsResult(shop: Shop, end: Ending, result: Result) {
    match end
    case Failure => result == Failed
    case Decided(d) =>
      if !d.CommitBlock? then result == Stopped
      else if IsReadable(shop, d.payload) then result == Done(d.header, d.payload)
      else result == Failed
    case Panic => result == Crashed
    case Dry => result == Stopped
  }

  /** The whole instance: it stops short of the last stream only if a round ends without starting another. */
  ghost predicate IsInstance(seat: Seat, streams: seq<seq<Input>>, logs: seq<Log>, result: Result) {
    && IsRun(seat, streams, logs)
    && if logs == [] then streams == [] && result == Stopped
       else
         var end := logs[|logs| - 1].end;
         && IsResult(seat.shop, end, result)
         && (end.Decided? && end.d.StartRound? ==> |logs| == |streams|)
  }

  /** A decision to start a round leaves what that round needs. */
  lemma NextFollows(seat: Seat, round: nat, ins: seq<Input>, os: seq<Outcome>, d: Decision)
    requires IsLife(seat.At(round), ins, os) && os != [] && d in os[|os| - 1].decisions && d.StartRound?
    ensures d.round > round && Follows(seat, d.round, Some(d))
  {
    CertificateIsAccepted(seat.At(round), ins, os, |os| - 1, d, seat.At(d.round));
  }

  lemma DecidedIsLast(seat: Seat, waiting: seq<Input>, events: seq<Input>, log: Log)
    requires IsRound(seat, waiting, events, log) && log.end.Decided?
    ensures log.os != [] && log.end.d in log.os[|log.os| - 1].decisions && !log.end.d.Broadcast?
  {
    assert Satisfies(seat, waiting, events, log, Feeding) && Satisfies(seat, waiting, events, log, Silence);
    assert Satisfies(seat, waiting, events, log, Life) && Satisfies(seat, waiting, events, log, Reason);
  }

  lemma RoundIsFollowed(seat: Seat, waiting: seq<Input>, events: seq<Input>, log: Log)
    requires IsRound(seat, waiting, events, log) && log.end.Decided? && !log.end.d.CommitBlock?
    ensures log.end.d.StartRound? && log.end.d.round > log.round && Follows(seat, log.end.d.round, Some(log.end.d))
  {
    DecidedIsLast(seat, waiting, events, log);
    assert Satisfies(seat, waiting, events, log, Life);
    NextFollows(seat, log.round, log.ins, log.os, log.end.d);
  }

  lemma RunGoesOn(seat: Seat, streams: seq<seq<Input>>, logs: seq<Log>, log: Log)
    requires IsRun(seat, streams, logs) && |logs| < |streams|
    requires IsRound(seat, Kept(logs + [log], |logs|), streams[|logs|], log) && IsLinked(logs + [log], |logs|)
    ensures IsRun(seat, streams, logs + [log])
  {
    var more := logs + [log];
    forall k | 0 <= k < |logs|
      ensures IsRoundOf(seat, streams, more, k)
    {
      assert IsRoundOf(seat, streams, logs, k);
      assert Kept(more, k) == Kept(logs, k) && IsLinked(more, k);
    }
  }

  /** Decides one block.  `streams` holds the events of each round in turn. */
  method RunInstance(seat: Seat, streams: seq<seq<Input>>) returns (result: Result, ghost logs: seq<Log>)
    requires forall k, i :: 0 <= k < |streams| && i in streams[k] ==> IsEvent(seat.At(0), i)
    ensures IsInstance(seat, streams, logs, result)
  {
    var round: nat, start, prev: Core? := 0, None, null;
    ghost var ins, os := [], [];
    result, logs := Stopped, [];
    for k := 0 to |streams|
      invariant prev != null ==> fresh(prev) && Lived(prev, ins, os)
      invariant result == Stopped && Follows(seat, round, start) && |logs| == k && IsRun(seat, streams, logs)
      invariant if k == 0 then prev == null && round == 0 && start == None
                else
                  && prev != null && logs[k - 1].os == os
                  && logs[k - 1].end.Decided? && start == Some(logs[k - 1].end.d)
    {
      SameEvents(seat, streams[k], round);
      var core, end;
      ghost var log;
      core, end, log := RunRound(seat, round, start, prev, streams[k], ins, os);
      RunGoesOn(seat, streams, logs, log);
      logs, ins, os := logs + [log], log.ins, log.os;
      match end
      case Failure =>
        return Failed, logs;
      case Panic =>
        return Crashed, logs;
      case Dry =>
        return Stopped, logs;
      case Decided(d) =>
        if d.CommitBlock? {
          result := if IsReadable(seat.shop, d.payload) then Done(d.header, d.payload) else Failed;
          return;
        }
        RoundIsFollowed(seat, Kept(logs, k), streams[k], log);
        start, prev, round := Some(d), core, d.round;
    }
  }

  lemma SameEvents(seat: Seat, events: seq<Input>, round: nat)
    requires forall i :: i in events ==> IsEvent(seat.At(0), i)
    ensures forall i :: i in events ==> IsEvent(seat.At(round), i)
  {
  }

  // ----- What the instance proposes and decides

  ghost predicate AreEvents(seat: Seat, streams: seq<seq<Input>>) {
    forall k, i :: 0 <= k < |streams| && i in streams[k] ==> IsEvent(seat.At(0), i)
  }

  predicate IsBacklog(i: Input) {
    i.Message? && i.m.body.Proposal?
  }

  predicate AreBacklog(ins: seq<Input>) {
    forall j :: 0 <= j < |ins| ==> IsBacklog(ins[j])
  }

  lemma WaitingAreProposals(p: Params, backlog: map<nat, seq<Incoming>>, round: nat)
    requires Buffered(p, backlog)
    ensures AreBacklog(Waiting(backlog, round))
  {
    if round in backlog {
      forall j | 0 <= j < |backlog[round]|
        ensures IsBacklog(Waiting(backlog, round)[j])
      {
        assert IsEarly(p, round, backlog[round][j]);
      }
    }
  }

  lemma KeptAreProposals(seat: Seat, streams: seq<seq<Input>>, logs: seq<Log>, k: nat)
    requires IsRun(seat, streams, logs) && k < |logs|
    ensures AreBacklog(Kept(logs, k))
  {
    if k > 0 {
      var prev := logs[k - 1];
      assert IsRoundOf(seat, streams, logs, k - 1);
      assert Satisfies(seat, Kept(logs, k - 1), streams[k - 1], prev, Life);
      LifeKeepsBacklog(seat.At(prev.round), prev.ins, prev.os, |prev.os|);
      WaitingAreProposals(seat.At(prev.round), Before(prev.os, |prev.os|).backlog, logs[k].round);
    }
  }

  lemma NextRoundIsLater(seat: Seat, streams: seq<seq<Input>>, logs: seq<Log>, k: nat)
    requires IsRun(seat, streams, logs) && 0 < k < |logs|
    ensures logs[k - 1].round < logs[k].round
  {
    assert IsRoundOf(seat, streams, logs, k) && IsRoundOf(seat, streams, logs, k - 1);
    RoundIsFollowed(seat, Kept(logs, k - 1), streams[k - 1], logs[k - 1]);
  }

  /** Rounds strictly increase. */
  lemma {:induction false} RoundsRise(seat: Seat, streams: seq<seq<Input>>, logs: seq<Log>, i: nat, j: nat)
    requires IsRun(seat, streams, logs) && i < j < |logs|
    ensures logs[i].round < logs[j].round
  {
    NextRoundIsLater(seat, streams, logs, j);
    if i < j - 1 {
      RoundsRise(seat, streams, logs, i, j - 1);
    }
  }

  /** A proposal, with the decision that started its round. */
  datatype Offer = Offer(last: Option<Decision>, body: Body)

  /** A proposal of this validator: made in its turn, with a certificate every peer accepts, of the
      block that the last round change calls for. */
  ghost predicate IsProper(seat: Seat, round: nat, offer: Offer) {
    && IsTurn(seat, round)
    && Follows(seat, round, offer.last)
    && var b := offer.body;
    && b.Proposal? && b.view == View(seat.sequence, round) && b.header.Some?
    && b.rcc == Certificate(offer.last)
    && Choose(seat.shop, offer.last, round) == Some(Block(b.header.value, b.payload))
  }

  lemma OnlyProposersPropose(p: Params, s: State, i: Input, o: Outcome, b: Body)
    requires Takes(p, s, i, o) && Broadcast(b) in o.decisions && b.Proposal?
    ensures i.Proposing? && b == Proposal(p.Here(), Some(i.header), i.payload, i.rcc)
  {
  }

  lemma ProposesAt(waiting: seq<Input>, opening: seq<Input>, rest: seq<Input>, all: seq<Input>, k: nat)
    requires all == waiting + opening + rest && |opening| <= 1 && k < |all| && all[k].Proposing?
    requires AreBacklog(waiting) && forall j :: 0 <= j < |rest| ==> !rest[j].Proposing?
    ensures k == |waiting| && opening == [all[k]]
  {
  }

  lemma OpeningIsProper(seat: Seat, round: nat, last: Option<Decision>, i: Input)
    requires Follows(seat, round, last) && Opening(seat, round, last) == [i]
    ensures i.Proposing?
    ensures IsProper(seat, round, Offer(last, Proposal(View(seat.sequence, round), Some(i.header), i.payload, i.rcc)))
  {
  }

  lemma OpeningProposes(seat: Seat, waiting: seq<Input>, events: seq<Input>, log: Log)
    requires IsRound(seat, waiting, events, log)
    ensures |log.opening| <= 1 && forall j :: 0 <= j < |log.opening| ==> log.opening[j].Proposing?
  {
    assert Satisfies(seat, waiting, events, log, Turn);
  }

  lemma EventsDoNotPropose(seat: Seat, streams: seq<seq<Input>>, r: nat, m: nat)
    requires AreEvents(seat, streams) && r < |streams| && m <= |streams[r]|
    ensures forall j :: 0 <= j < m ==> !streams[r][..m][j].Proposing?
  {
    forall j | 0 <= j < m
      ensures !streams[r][..m][j].Proposing?
    {
      assert streams[r][j] in streams[r] && IsEvent(seat.At(0), streams[r][j]);
    }
  }

  lemma ProposesAfterBacklog(seat: Seat, streams: seq<seq<Input>>, logs: seq<Log>, r: nat, k: nat)
    requires IsRun(seat, streams, logs) && AreEvents(seat, streams)
    requires r < |logs| && k < |logs[r].ins| && logs[r].ins[k].Proposing?
    ensures k == |Kept(logs, r)| && Follows(seat, logs[r].round, logs[r].last)
    ensures Opening(seat, logs[r].round, logs[r].last) == [logs[r].ins[k]]
  {
    var log, waiting, events := logs[r], Kept(logs, r), streams[r];
    assert IsRoundOf(seat, streams, logs, r);
    assert Satisfies(seat, waiting, events, log, Feeding) && Satisfies(seat, waiting, events, log, Turn);
    KeptAreProposals(seat, streams, logs, r);
    OpeningProposes(seat, waiting, events, log);
    EventsDoNotPropose(seat, streams, r, log.fed);
    ProposesAt(waiting, log.opening, events[..log.fed], log.ins, k);
  }

  /** Every proposal that a round broadcasts comes right after the backlog replay, so it is the only one
      of the round, and is proper. */
  lemma ProposalIsProper(seat: Seat, streams: seq<seq<Input>>, logs: seq<Log>, r: nat, k: nat, b: Body)
    requires IsRun(seat, streams, logs) && AreEvents(seat, streams)
    requires r < |logs| && k < |logs[r].os| && Broadcast(b) in logs[r].os[k].decisions && b.Proposal?
    ensures k == |Kept(logs, r)| && IsProper(seat, logs[r].round, Offer(logs[r].last, b))
  {
    var log := logs[r];
    assert IsRoundOf(seat, streams, logs, r);
    assert Satisfies(seat, Kept(logs, r), streams[r], log, Life);
    assert IsTaken(seat.At(log.round), log.ins, log.os, k);
    OnlyProposersPropose(seat.At(log.round), Before(log.os, k), log.ins[k], log.os[k], b);
    ProposesAfterBacklog(seat, streams, logs, r, k);
    OpeningIsProper(seat, log.round, log.last, log.ins[k]);
  }

  /** The last input of the round is a COMMIT that the core counts, and that brings the validators heard
      from to a quorum, for a proposal whose seals can be put in. */
  ghost predicate IsCommitted(seat: Seat, log: Log) {
    && |log.ins| == |log.os| > 0
    && var p, n, i := seat.At(log.round), |log.os| - 1, log.ins[|log.os| - 1];
    var s := Before(log.os, n);
    && i.Message? && i.m.body.Commit? && IsCommitFrom(p, s, i, i.m.from, i.m.body.seal)
    && |CommittedBy(p, log.ins, log.os, n + 1)| >= p.quorum && s.proposal.Some?
    && p.cfg.commitBlock(s.proposal.value, SealList(log.os[n].state.commits)).Some?
  }

  /** The block that the round commits. */
  ghost function Committed(seat: Seat, log: Log): (d: Decision)
    requires IsCommitted(seat, log)
    ensures d.CommitBlock?
  {
    var s, commits := Before(log.os, |log.os| - 1), log.os[|log.os| - 1].state.commits;
    CommitBlock(seat.cfg.commitBlock(s.proposal.value, SealList(commits)).value, s.payload)
  }

  lemma CommittedIff(seat: Seat, log: Log)
    requires IsLife(seat.At(log.round), log.ins, log.os) && log.os != []
    ensures EmitsBlock(log.os[|log.os| - 1]) <==> IsCommitted(seat, log)
    ensures IsCommitted(seat, log) ==> log.os[|log.os| - 1].decisions == [Committed(seat, log)]
  {
    var p, n := seat.At(log.round), |log.os| - 1;
    LifeCommitIff(p, log.ins, log.os, n);
    LifeHasProposal(p, log.ins, log.os, n);
    assert IsTaken(p, log.ins, log.os, n);
    CommitIff(p, Before(log.os, n), log.ins[n], log.os[n]);
  }

  lemma CommitIsEvent(waiting: seq<Input>, opening: seq<Input>, rest: seq<Input>, all: seq<Input>)
    requires all == waiting + opening + rest && |all| > 0
    requires all[|all| - 1].Message? && all[|all| - 1].m.body.Commit?
    requires AreBacklog(waiting) && forall j :: 0 <= j < |opening| ==> opening[j].Proposing?
    ensures |all| > |waiting + opening|
  {
  }

  lemma RoundCommitsIff(seat: Seat, waiting: seq<Input>, events: seq<Input>, log: Log)
    requires IsRound(seat, waiting, events, log) && AreBacklog(waiting)
    ensures log.end.Decided? && log.end.d.CommitBlock? <==> IsCommitted(seat, log)
    ensures IsCommitted(seat, log) ==> log.end.d == Committed(seat, log)
  {
    if log.end.Decided? {
      DecidedIsLast(seat, waiting, events, log);
    }
    if log.os != [] {
      assert Satisfies(seat, waiting, events, log, Life);
      CommittedIff(seat, log);
    }
    if IsCommitted(seat, log) {
      CommitIsDecided(seat, waiting, events, log, Committed(seat, log));
    }
  }

  lemma CommitIsDecided(seat: Seat, waiting: seq<Input>, events: seq<Input>, log: Log, d: Decision)
    requires IsRound(seat, waiting, events, log) && AreBacklog(waiting)
    requires |log.ins| == |log.os| > 0 && log.os[|log.os| - 1].decisions == [d] && !d.Broadcast?
    requires log.ins[|log.ins| - 1].Message? && log.ins[|log.ins| - 1].m.body.Commit?
    ensures log.end == Decided(d)
  {
    CommitIsFed(seat, waiting, events, log);
    assert Satisfies(seat, waiting, events, log, Silence);
  }

  lemma CommitIsFed(seat: Seat, waiting: seq<Input>, events: seq<Input>, log: Log)
    requires IsRound(seat, waiting, events, log) && AreBacklog(waiting)
    requires log.ins != [] && log.ins[|log.ins| - 1].Message? && log.ins[|log.ins| - 1].m.body.Commit?
    ensures |log.ins| > |waiting + log.opening|
  {
    assert Satisfies(seat, waiting, events, log, Feeding);
    OpeningProposes(seat, waiting, events, log);
    CommitIsEvent(waiting, log.opening, events[..log.fed], log.ins);
  }

  /** Nothing the core was given ended the round, and the next event would end the process. */
  ghost predicate IsCrash(seat: Seat, waiting: nat, events: seq<Input>, log: Log) {
    && !IsAtLoss(seat, log) && IsQuiet(log.os, waiting, |log.os|)
    && log.fed < |events| && events[log.fed].Message?
    && Panics(seat.At(log.round), Before(log.os, |log.os|), events[log.fed].m)
  }

  /** No outcome from the first to before the last named ends the round. */
  ghost predicate IsQuiet(os: seq<Outcome>, from: nat, to: nat) {
    to <= |os| && forall k :: from <= k < to ==> Verdict(os[k].decisions) == None
  }

  lemma OpeningIsQuiet(seat: Seat, waiting: seq<Input>, events: seq<Input>, log: Log)
    requires IsRound(seat, waiting, events, log)
    ensures IsQuiet(log.os, |waiting|, |waiting + log.opening|)
  {
    assert Satisfies(seat, waiting, events, log, Life) && Satisfies(seat, waiting, events, log, Feeding);
    OpeningProposes(seat, waiting, events, log);
    if log.opening != [] {
      var k := |waiting|;
      assert log.ins[k] == log.opening[0];
      assert IsTaken(seat.At(log.round), log.ins, log.os, k);
      var ds := log.os[k].decisions;
      assert Verdict(ds) == Verdict(ds[1..]) == Verdict(ds[1..][1..]);
    }
  }

  lemma PanicIff(p: Params, os: seq<Outcome>, from: nat, n: nat, events: seq<Input>, fed: nat, end: Ending)
    requires IsUndecided(os, n, end) && IsQuiet(os, from, n) && from <= n
    requires fed <= |events| && |os| == n + fed && IsOver(p, Before(os, |os|), events, fed, end)
    ensures end == Panic <==>
      && IsQuiet(os, from, |os|)
      && fed < |events| && events[fed].Message? && Panics(p, Before(os, |os|), events[fed].m)
  {
  }

  lemma RoundCrashesIff(seat: Seat, waiting: seq<Input>, events: seq<Input>, log: Log)
    requires IsRound(seat, waiting, events, log) && !IsAtLoss(seat, log)
    ensures log.end == Panic <==> IsCrash(seat, |waiting|, events, log)
    ensures log.end != Failure
  {
    var p, n := seat.At(log.round), |waiting + log.opening|;
    OpeningIsQuiet(seat, waiting, events, log);
    assert Satisfies(seat, waiting, events, log, Silence) && Satisfies(seat, waiting, events, log, Reason);
    assert Satisfies(seat, waiting, events, log, Life) && Satisfies(seat, waiting, events, log, Feeding);
    PanicIff(p, log.os, |waiting|, n, events, log.fed, log.end);
  }

  lemma RoundFails(seat: Seat, waiting: seq<Input>, events: seq<Input>, log: Log)
    requires IsRound(seat, waiting, events, log) && IsAtLoss(seat, log)
    ensures log.end == Failure
  {
    assert Satisfies(seat, waiting, events, log, Reason);
  }

  /** The instance fails exactly if its last round finds this validator with nothing to propose in its
      turn, or commits a block with an unreadable payload; and the process ends exactly if nothing ended
      the last round before an event that would end it. */
  lemma FailedIff(seat: Seat, streams: seq<seq<Input>>, logs: seq<Log>, result: Result)
    requires IsInstance(seat, streams, logs, result)
    ensures result == Failed <==>
      logs != [] && var log := logs[|logs| - 1];
      IsAtLoss(seat, log) || (IsCommitted(seat, log) && !IsReadable(seat.shop, Committed(seat, log).payload))
    ensures result == Crashed <==>
      logs != [] && var r := |logs| - 1; IsCrash(seat, |Kept(logs, r)|, streams[r], logs[r])
  {
    if logs != [] {
      var r := |logs| - 1;
      assert IsRoundOf(seat, streams, logs, r);
      KeptAreProposals(seat, streams, logs, r);
      RoundCommitsIff(seat, Kept(logs, r), streams[r], logs[r]);
      if IsAtLoss(seat, logs[r]) {
        RoundFails(seat, Kept(logs, r), streams[r], logs[r]);
      } else {
        RoundCrashesIff(seat, Kept(logs, r), streams[r], logs[r]);
      }
    }
  }

  /** The instance yields a block exactly if its last round ends with a COMMIT that completes a quorum, on
      a readable payload, and then it is the core's proposal with the collected seals, and its payload. */
  lemma DoneIff(seat: Seat, streams: seq<seq<Input>>, logs: seq<Log>, result: Result)
    requires IsInstance(seat, streams, logs, result)
    ensures result.Done? <==>
      logs != [] && var log := logs[|logs| - 1];
      IsCommitted(seat, log) && IsReadable(seat.shop, Committed(seat, log).payload)
    ensures result.Done? ==> CommitBlock(result.header, result.payload) == Committed(seat, logs[|logs| - 1])
  {
    if logs != [] {
      var r := |logs| - 1;
      assert IsRoundOf(seat, streams, logs, r);
      KeptAreProposals(seat, streams, logs, r);
      RoundCommitsIff(seat, Kept(logs, r), streams[r], logs[r]);
    }
  }

  // ----- Carry-over into what is proposed

  /** Every proposal of the round has a readable header and payload. */
  ghost predicate AreReadable(sent: seq<Sent>, e: QbftHeader.Engine, shop: Shop) {
    forall m :: m in sent && m.body.Proposal? && m.body.header.Some? ==>
      && QbftHeader.DecodeExtra(e, m.body.header.value).Some?
      && |m.body.payload| > 0 && shop.decodes(m.body.payload)
  }

  /** With no faulty validators and one proposer, if a quorum broadcast COMMIT for a block in a round,
      a proposal made in the next round on a decision of the first is that block again: the payload
      it was proposed with, and its header but for round and seals. */
  lemma NextRoundProposesBlock(w: World, acts: seq<Act>, voters: set<Address>, h: Hash, k: nat,
                               e: QbftHeader.Engine, seat: Seat, offer: Offer) returns (block: Header)
    requires w.byz == {} && w.validators != {} && Legal(w, acts) && IsLed(w, acts)
    requires HaveVoted(w, voters, h, Play(w, acts).sent)
    requires offer.last.Some? && k < |acts| && offer.last.value in acts[k].o.decisions
    requires seat.sequence == w.sequence && IsProper(seat, w.round + 1, offer)
    requires e.Lawful() && AreReadable(Play(w, acts).sent, e, seat.shop)
    requires forall b, r :: seat.shop.reuse(b, r) == QbftHeader.ReusePrepared(e, b, r, seat.me)
    ensures HashOf(block) == h
    ensures IsResealed(e, block, offer.body.header.value, w.round + 1)
    ensures exists rcc ::
      Sent(Leader(w.validators, w.sequence, w.round), Proposal(w.Here(), Some(block), offer.body.payload, rcc))
        in Play(w, acts).sent
  {
    var d, sent := offer.last.value, Play(w, acts).sent;
    CarryOver(w, acts, voters, h, k, d);
    block := d.prepared.value;
    var leader := Leader(w.validators, w.sequence, w.round);
    var rcc :| Sent(leader, Proposal(w.Here(), d.prepared, d.preparedPayload, rcc)) in sent;
    NextProposalIsPrepared(seat.shop, e, seat.me, d, w.round + 1);
  }
}

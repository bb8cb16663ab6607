/**
 A view can be left: whatever has happened in it, as long as no member of an honest quorum has
 committed, some continuation takes every one of them to a decision to start the next round.
 */
module QbftLeaving {
  import opened Primitives
  import opened ByteOrder
  import opened Qbft
  import opened QbftCore
  import opened QbftNetwork

  // ----- Every round change has an outcome

  lemma {:induction false} FirstGreater(keys: seq<seq<byte>>, x: seq<byte>, i: nat) returns (r: nat)
    requires i <= |keys| && forall k :: 0 <= k < i ==> !Less(x, keys[k])
    ensures r <= |keys| && (forall k :: 0 <= k < r ==> !Less(x, keys[k])) && (r < |keys| ==> Less(x, keys[r]))
    decreases |keys| - i
  {
    if i == |keys| || Less(x, keys[i]) {
      r := i;
    } else {
      r := FirstGreater(keys, x, i + 1);
    }
  }

  /** The round changes of any senders can be put in the order of their bytes. */
  lemma {:induction false} CanSort(changes: map<Address, Noted>, todo: set<Address>, encode: RoundChange -> seq<byte>)
    returns (order: seq<Address>, records: seq<Noted>)
    requires todo <= changes.Keys
    ensures Enumerates(order, todo) && AreRecords(changes, order, records) && IsSorted(KeysOf(encode, records))
  {
    if todo == {} {
      order, records := [], [];
    } else {
      var a :| a in todo;
      order, records := CanSort(changes, todo - {a}, encode);
      order, records := CanInsert(changes, todo - {a}, encode, order, records, a);
      assert todo - {a} + {a} == todo;
    }
  }

  lemma CanInsert(changes: map<Address, Noted>, s: set<Address>, encode: RoundChange -> seq<byte>,
                  order: seq<Address>, records: seq<Noted>, a: Address)
    returns (order': seq<Address>, records': seq<Noted>)
    requires Enumerates(order, s) && AreRecords(changes, order, records) && IsSorted(KeysOf(encode, records))
    requires a in changes && a !in s
    ensures Enumerates(order', s + {a}) && AreRecords(changes, order', records') && IsSorted(KeysOf(encode, records'))
  {
    var keys, x := KeysOf(encode, records), changes[a];
    var i := FirstGreater(keys, encode(x.rc), 0);
    InsertKeepsSorted(keys, i, encode(x.rc));
    InsertedKeys(encode, records, i, x);
    InsertedRecords(changes, order, records, i, a);
    order', records' := order[..i] + [a] + order[i..], records[..i] + [x] + records[i..];
    forall b
      ensures b in order' <==> b in s + {a}
    {
      assert b in order' <==> b in multiset(order');
      assert b in order <==> b in multiset(order);
    }
  }

  /** Among the records there is one with a block of the highest prepared round, if any has a block. */
  lemma {:induction false} HasHighest(records: seq<Noted>) returns (r: Option<Noted>)
    ensures r == None <==> forall n :: n in records ==> n.rc.block == NoBlock
    ensures r.Some? ==> r.value in records && r.value.rc.block != NoBlock
    ensures r.Some? ==>
      forall n :: n in records && n.rc.block != NoBlock ==> n.rc.preparedRound <= r.value.rc.preparedRound
  {
    r := None;
    if records != [] {
      var i := |records| - 1;
      r := HasHighest(records[..i]);
      assert records == records[..i] + [records[i]];
      if records[i].rc.block != NoBlock && (r == None || records[i].rc.preparedRound >= r.value.rc.preparedRound) {
        r := Some(records[i]);
      }
    }
  }

  lemma CanStart(p: Params, changes: map<Address, Noted>, round: nat) returns (d: Decision)
    ensures d.StartRound? && Starts(changes, round, d) && IsSorted(Keys(p.cfg.encode, d.rcc))
  {
    var order, records := CanSort(changes, Aiming(changes, round), p.cfg.encode);
    var best := HasHighest(records);
    var rcc := seq(|records|, i requires 0 <= i < |records| => Signed(Some(records[i].rc), records[i].sig));
    assert Keys(p.cfg.encode, rcc) == KeysOf(p.cfg.encode, records);
    d := StartRound(round, None, [], rcc);
    if best.Some? {
      var block := best.value.rc.block;
      d := StartRound(round, if block.Encoded? then Some(block.header) else None, best.value.rc.payload, rcc);
    }
    BestStarts(changes, round, records, order, order, best, d);
  }

  /** A core can take any round change. */
  lemma CanTakeChange(p: Params, s: State, m: Incoming) returns (o: Outcome)
    requires m.body.Change?
    ensures HandlesChange(p, s, m, o)
  {
    var s' := NoteChange(p, s, m);
    var d := CanStart(p, s'.changes, m.body.rc.view.round);
    var starts := m.body.rc.view.sequence == p.sequence && m.body.rc.view.round > p.round &&
                  |Aiming(s'.changes, m.body.rc.view.round)| >= p.quorum;
    o := Outcome(s', if starts then [d] else []);
  }

  // ----- Whoever is changing rounds has said so

  /** The validator has asked for the next round. */
  ghost predicate Asks(w: World, net: Net, x: Address) {
    exists rc: RoundChange :: rc.view == w.Next() && Sent(x, Change(rc)) in net.sent
  }

  lemma OnlyTimersChange(p: Params, s: State, m: Incoming, o: Outcome)
    requires HasProposal(s) && !Panics(p, s, m) && Handles(p, s, m, o) && o.state.phase == RoundChanging
    ensures s.phase == RoundChanging
  {
  }

  lemma ActAsks(w: World, net: Net, act: Act)
    requires CanAct(w, net, act) && act.o.state.phase == RoundChanging
    ensures net.members[act.a].core.phase == RoundChanging || Asks(w, AfterAct(net, act), act.a)
  {
    var p, s := w.Params(act.a), net.members[act.a].core;
    match act.e
    case Replay(m) => OnlyTimersChange(p, s, m, act.o);
    case Deliver(m) => OnlyTimersChange(p, s, m, act.o);
    case Propose(_, _, _) =>
    case Expire =>
      if s.phase != RoundChanging {
        FewBroadcasts(act.a, act.o.decisions);
        assert Output(act)[0] == Sent(act.a, act.o.decisions[0].body);
        assert Output(act)[0] in AfterAct(net, act).sent;
      }
  }

  lemma StillAsks(w: World, net: Net, act: Act, x: Address)
    requires act.a in net.members && Asks(w, net, x)
    ensures Asks(w, AfterAct(net, act), x)
  {
    var rc: RoundChange :| rc.view == w.Next() && Sent(x, Change(rc)) in net.sent;
    assert Sent(x, Change(rc)) in AfterAct(net, act).sent;
  }

  /** In every run, a validator that is changing rounds has asked for the next. */
  lemma {:induction false} ChangingHasAsked(w: World, acts: seq<Act>, x: Address)
    requires Legal(w, acts) && x in Play(w, acts).members && Play(w, acts).members[x].core.phase == RoundChanging
    ensures Asks(w, Play(w, acts), x)
  {
    if acts != [] {
      var n := |acts| - 1;
      var act, net := acts[n], Play(w, acts[..n]);
      LegalFront(w, acts, n);
      if act.a == x {
        ActAsks(w, net, act);
      }
      if net.members[x].core.phase == RoundChanging {
        ChangingHasAsked(w, acts[..n], x);
        StillAsks(w, net, act, x);
      }
    }
  }

  // ----- Everyone asks

  /** An honest quorum. */
  ghost predicate IsQuorum(w: World, q: set<Address>) {
    |q| >= Quorum(|w.validators|) && forall x :: x in q ==> w.Honest(x)
  }

  ghost predicate IsOpen(net: Net, x: Address) {
    x in net.members && net.members[x].core.phase != Committed
  }

  /** `more` continues the run, and no one in `q` commits in it. */
  ghost predicate Extends(w: World, q: set<Address>, acts: seq<Act>, more: seq<Act>) {
    && acts <= more && Legal(w, more)
    && forall x :: x in q ==> IsOpen(Play(w, more), x)
  }

  lemma NextKeepsOpen(w: World, q: set<Address>, acts: seq<Act>, act: Act)
    requires Extends(w, q, acts, acts) && CanAct(w, Play(w, acts), act) && act.o.state.phase != Committed
    ensures Extends(w, q, acts, acts + [act]) && Play(w, acts + [act]) == AfterAct(Play(w, acts), act)
  {
    LegalNext(w, acts, act);
    assert forall x :: x in q ==> IsOpen(Play(w, acts), x);
  }

  lemma CanAsk(w: World, q: set<Address>, acts: seq<Act>, x: Address) returns (more: seq<Act>)
    requires Extends(w, q, acts, acts) && x in q
    ensures Extends(w, q, acts, more) && Asks(w, Play(w, more), x)
    ensures forall y :: Asks(w, Play(w, acts), y) ==> Asks(w, Play(w, more), y)
  {
    var net := Play(w, acts);
    assert IsOpen(net, x);
    if net.members[x].core.phase == RoundChanging {
      ChangingHasAsked(w, acts, x);
      more := acts;
    } else {
      var act := Act(x, Expire, Timeout(w.Params(x), net.members[x].core));
      RunKeepsInv(w, acts);
      assert Holds(w, x, net.members[x], net.sent);
      NextKeepsOpen(w, q, acts, act);
      ActAsks(w, net, act);
      forall y | Asks(w, net, y)
        ensures Asks(w, AfterAct(net, act), y)
      {
        StillAsks(w, net, act, y);
      }
      more := acts + [act];
    }
  }

  lemma {:induction false} AllCanAsk(w: World, q: set<Address>, acts: seq<Act>, todo: set<Address>)
    returns (more: seq<Act>)
    requires Extends(w, q, acts, acts) && todo <= q && forall x :: x in q - todo ==> Asks(w, Play(w, acts), x)
    ensures Extends(w, q, acts, more) && forall x :: x in q ==> Asks(w, Play(w, more), x)
    decreases todo
  {
    if todo == {} {
      more := acts;
    } else {
      var x :| x in todo;
      var next := CanAsk(w, q, acts, x);
      more := AllCanAsk(w, q, next, todo - {x});
    }
  }

  // ----- Everyone hears

  ghost predicate AllAsk(w: World, q: set<Address>, net: Net) {
    forall x :: x in q ==> Asks(w, net, x)
  }

  /** From act `from` on, the validator decides to start the next round. */
  ghost predicate HasMoved(w: World, acts: seq<Act>, from: nat, x: Address) {
    exists k :: from <= k < |acts| && acts[k].a == x && StartsRound(acts[k].o, w.round + 1)
  }

  /** The validator has noted that `heard` ask for the next round; if that is a quorum, it has moved on. */
  ghost predicate IsLeaving(w: World, acts: seq<Act>, from: nat, x: Address, heard: set<Address>) {
    && x in Play(w, acts).members
    && heard <= Aiming(Play(w, acts).members[x].core.changes, w.round + 1)
    && (|heard| >= Quorum(|w.validators|) ==> HasMoved(w, acts, from, x))
  }

  predicate StartsRound(o: Outcome, round: nat) {
    exists d :: d in o.decisions && d.StartRound? && d.round == round
  }

  lemma ChangeIsHeard(p: Params, s: State, m: Incoming, o: Outcome, heard: set<Address>)
    requires m.body.Change? && HandlesChange(p, s, m, o) && m.body.rc.view == View(p.sequence, p.round + 1)
    requires heard <= Aiming(s.changes, p.round + 1)
    ensures heard + {m.from} <= Aiming(o.state.changes, p.round + 1) && o.state.phase == s.phase
    ensures |heard + {m.from}| >= p.quorum ==> StartsRound(o, p.round + 1)
  {
    var aiming := Aiming(o.state.changes, p.round + 1);
    assert heard + {m.from} <= aiming;
    SubsetIsNoLarger(heard + {m.from}, aiming);
    if |heard + {m.from}| >= p.quorum {
      assert o.decisions[0] in o.decisions;
    }
  }

  lemma CanHear(w: World, net: Net, x: Address, heard: set<Address>, y: Address) returns (act: Act)
    requires Inv(w, net) && w.Honest(x) && w.Honest(y) && Asks(w, net, y) && IsOpen(net, x)
    requires heard <= Aiming(net.members[x].core.changes, w.round + 1)
    ensures act.a == x && CanAct(w, net, act) && act.o.state.phase != Committed
    ensures heard + {y} <= Aiming(act.o.state.changes, w.round + 1)
    ensures |heard + {y}| >= Quorum(|w.validators|) ==> StartsRound(act.o, w.round + 1)
  {
    var rc: RoundChange :| rc.view == w.Next() && Sent(y, Change(rc)) in net.sent;
    var m, s := Incoming(y, Change(rc), []), net.members[x].core;
    assert Holds(w, x, net.members[x], net.sent);
    var o := CanTakeChange(w.Params(x), s, m);
    ChangeIsHeard(w.Params(x), s, m, o, heard);
    act := Act(x, Deliver(m), o);
  }

  lemma StillMoved(w: World, acts: seq<Act>, more: seq<Act>, from: nat, x: Address)
    requires acts <= more && HasMoved(w, acts, from, x)
    ensures HasMoved(w, more, from, x)
  {
    var k :| from <= k < |acts| && acts[k].a == x && StartsRound(acts[k].o, w.round + 1);
    assert more[k] == acts[k];
  }

  lemma AskersStillAsk(w: World, q: set<Address>, net: Net, act: Act)
    requires act.a in net.members && AllAsk(w, q, net)
    ensures AllAsk(w, q, AfterAct(net, act))
  {
    forall x | x in q
      ensures Asks(w, AfterAct(net, act), x)
    {
      StillAsks(w, net, act, x);
    }
  }

  lemma HearOne(w: World, q: set<Address>, acts: seq<Act>, from: nat, x: Address, heard: set<Address>, y: Address)
    returns (more: seq<Act>)
    requires Extends(w, q, acts, acts) && IsQuorum(w, q) && AllAsk(w, q, Play(w, acts)) && x in q && y in q
    requires IsLeaving(w, acts, from, x, heard) && from <= |acts|
    ensures Extends(w, q, acts, more) && AllAsk(w, q, Play(w, more)) && IsLeaving(w, more, from, x, heard + {y})
  {
    var net := Play(w, acts);
    RunKeepsInv(w, acts);
    assert IsOpen(net, x);
    var act := CanHear(w, net, x, heard, y);
    NextKeepsOpen(w, q, acts, act);
    AskersStillAsk(w, q, net, act);
    more := acts + [act];
    assert more[|acts|] == act;
  }

  lemma {:induction false} HearAll(
      w: World, q: set<Address>, acts: seq<Act>, from: nat, x: Address, heard: set<Address>) returns (more: seq<Act>)
    requires Extends(w, q, acts, acts) && IsQuorum(w, q) && AllAsk(w, q, Play(w, acts)) && x in q && heard <= q
    requires IsLeaving(w, acts, from, x, heard) && from <= |acts|
    ensures Extends(w, q, acts, more) && AllAsk(w, q, Play(w, more)) && HasMoved(w, more, from, x)
    decreases q - heard
  {
    if heard == q {
      more := acts;
    } else {
      var y :| y in q && y !in heard;
      var heard' := heard + {y};
      assert heard' <= q && q - heard' < q - heard;
      var next := HearOne(w, q, acts, from, x, heard, y);
      more := HearAll(w, q, next, from, x, heard');
    }
  }

  lemma {:induction false} AllHear(w: World, q: set<Address>, acts: seq<Act>, from: nat, todo: set<Address>)
    returns (more: seq<Act>)
    requires Extends(w, q, acts, acts) && IsQuorum(w, q) && AllAsk(w, q, Play(w, acts)) && from <= |acts|
    requires todo <= q && forall x :: x in q - todo ==> HasMoved(w, acts, from, x)
    ensures Extends(w, q, acts, more) && forall x :: x in q ==> HasMoved(w, more, from, x)
    decreases todo
  {
    if todo == {} {
      more := acts;
    } else {
      var x :| x in todo;
      assert IsOpen(Play(w, acts), x);
      var next := HearAll(w, q, acts, from, x, {});
      forall y | y in q - (todo - {x})
        ensures HasMoved(w, next, from, y)
      {
        if y != x {
          StillMoved(w, acts, next, from, y);
        }
      }
      more := AllHear(w, q, next, from, todo - {x});
    }
  }

  /** A view can be left: from any point of any run at which no member of an honest quorum has
      committed, there is a continuation in which every member decides to start the next round. */
  lemma ViewMovesOn(w: World, q: set<Address>, acts: seq<Act>) returns (more: seq<Act>)
    requires Legal(w, acts) && IsQuorum(w, q)
    requires forall x :: x in q ==> x in Play(w, acts).members && Play(w, acts).members[x].core.phase != Committed
    ensures acts <= more && Legal(w, more) && forall x :: x in q ==> HasMoved(w, more, |acts|, x)
  {
    assert forall x :: x in q ==> IsOpen(Play(w, acts), x);
    var asked := AllCanAsk(w, q, acts, q);
    more := AllHear(w, q, asked, |acts|, q);
  }
}

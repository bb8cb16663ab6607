/**
 The chain journal: an append-only file of length-prefixed records, the repair that runs when it
 is opened, and what survives when a crash cuts the file anywhere.

 Header and record encodings are parameters; all that is asked of them is that decoding undoes
 encoding.
 */
module Journal {
  import opened Primitives
  import opened ForkTree

  datatype Persisted = Persisted(header: seq<byte>, elHash: Hash, payload: seq<byte>)

  datatype Codec = Codec(
    encodeHeader: Header -> seq<byte>,
    decodeHeader: seq<byte> -> Option<Header>,
    encodeBlock: Persisted -> seq<byte>,
    decodeBlock: seq<byte> -> Option<Persisted>)
  {
    ghost predicate Lawful() {
      && (forall h :: decodeHeader(encodeHeader(h)) == Some(h))
      && (forall p :: decodeBlock(encodeBlock(p)) == Some(p))
    }

    function Body(r: Record): seq<byte> {
      encodeBlock(Persisted(encodeHeader(r.header), r.elHash, r.payload))
    }

    /** The record in a body, if both decodings succeed. */
    function RecordIn(body: seq<byte>): Option<Record> {
      match decodeBlock(body)
      case None => None
      case Some(p) =>
        match decodeHeader(p.header)
        case None => None
        case Some(h) => Some(Record(h, p.elHash, p.payload))
    }

    function Frame(r: Record): seq<byte> {
      PutUint32(|Body(r)|) + Body(r)
    }

    predicate Fits(r: Record) {
      |Body(r)| < MAX_FRAME
    }

    lemma BodyReadsBack(r: Record)
      requires Lawful()
      ensures RecordIn(Body(r)) == Some(r) && decodeBlock(Body(r)).Some?
    {
    }
  }

  const MAX_FRAME := 0x1_0000_0000

  /** Four big-endian bytes of `n`, which is first cut to 32 bits. */
  function PutUint32(n: nat): (b: seq<byte>)
    ensures |b| == 4
  {
    var b3 := n % MAX_FRAME;
    var b2 := b3 / 256;
    var b1 := b2 / 256;
    [b1 / 256, b1 % 256, b2 % 256, b3 % 256]
  }

  function Uint32(b: seq<byte>): nat
    requires |b| == 4
  {
    0x100_0000 * (b[0] as int) + 0x1_0000 * (b[1] as int) + 0x100 * (b[2] as int) + b[3] as int
  }

  lemma Uint32ReadsBack(n: nat)
    ensures Uint32(PutUint32(n)) == n % MAX_FRAME
  {
  }

  // ----- Reading a file

  /** The body of the frame that starts at `at`, when all of it is there. */
  function FrameAt(data: seq<byte>, at: nat): (body: Option<seq<byte>>)
    ensures body.Some? ==> at + 4 + |body.value| <= |data|
  {
    if at + 4 > |data| then None
    else
      var size := Uint32(data[at .. at + 4]);
      if at + 4 + size > |data| then None else Some(data[at + 4 .. at + 4 + size])
  }

  /** Where the last usable frame ends, scanning from `at`. */
  function GoodEnd(c: Codec, data: seq<byte>, at: nat): (end: nat)
    requires at <= |data|
    ensures end <= |data|
    decreases |data| - at
  {
    match FrameAt(data, at)
    case None => at
    case Some(body) => if c.decodeBlock(body) == None then at else GoodEnd(c, data, at + 4 + |body|)
  }

  function RecordsFrom(c: Codec, data: seq<byte>, at: nat): seq<Record>
    requires at <= |data|
    decreases |data| - at
  {
    match FrameAt(data, at)
    case None => []
    case Some(body) =>
      match c.RecordIn(body)
      case None => []
      case Some(r) => [r] + RecordsFrom(c, data, at + 4 + |body|)
  }

  // ----- A file written by appending, and cut

  function Frames(c: Codec, log: seq<Record>): seq<byte> {
    if log == [] then [] else Frames(c, log[..|log| - 1]) + c.Frame(log[|log| - 1])
  }

  lemma FramesNext(c: Codec, log: seq<Record>, i: nat)
    requires i < |log|
    ensures Frames(c, log[..i + 1]) == Frames(c, log[..i]) + c.Frame(log[i])
  {
    assert log[..i + 1][..i] == log[..i];
  }

  lemma {:induction false} FramesPrefix(c: Codec, log: seq<Record>, i: nat)
    requires i <= |log|
    ensures Frames(c, log[..i]) <= Frames(c, log)
  {
    if i == |log| {
      assert log[..i] == log;
    } else {
      FramesPrefix(c, log[..|log| - 1], i);
      assert log[..|log| - 1][..i] == log[..i];
    }
  }

  /** How many records lie completely within the first `k` bytes. */
  function Complete(c: Codec, log: seq<Record>, k: nat): (m: nat)
    ensures m <= |log|
    ensures |Frames(c, log[..m])| <= k
    ensures m < |log| ==> k < |Frames(c, log[..m + 1])|
  {
    if |Frames(c, log)| <= k then
      assert log[..|log|] == log;
      |log|
    else
      var n := |log| - 1;
      var m := Complete(c, log[..n], k);
      assert log[..n][..m] == log[..m];
      assert m < n ==> log[..n][..m + 1] == log[..m + 1];
      assert m == n ==> log[..m + 1] == log;
      m
  }

  lemma {:induction false} FramesAreMonotone(c: Codec, log: seq<Record>, i: nat, j: nat)
    requires i <= j <= |log|
    ensures |Frames(c, log[..i])| <= |Frames(c, log[..j])|
  {
    FramesPrefix(c, log[..j], i);
    assert log[..j][..i] == log[..i];
  }

  lemma FrameBytes(before: seq<byte>, prefix: seq<byte>, body: seq<byte>, all: seq<byte>, k: nat)
    requires |prefix| == 4 && |before| <= k <= |all| && before + (prefix + body) <= all
    ensures |before| + 4 <= k ==> all[..k][|before| .. |before| + 4] == prefix
    ensures |before| + 4 + |body| <= k ==> all[..k][|before| + 4 .. |before| + 4 + |body|] == body
  {
    var whole := before + (prefix + body);
    assert all[..|whole|] == whole;
    assert whole[|before| .. |before| + 4] == prefix;
    assert whole[|before| + 4..] == body;
  }

  lemma FrameAtCut(before: seq<byte>, body: seq<byte>, all: seq<byte>, k: nat)
    requires |body| < MAX_FRAME && |before| <= k <= |all| && before + (PutUint32(|body|) + body) <= all
    ensures FrameAt(all[..k], |before|) == if |before| + 4 + |body| <= k then Some(body) else None
  {
    Uint32ReadsBack(|body|);
    FrameBytes(before, PutUint32(|body|), body, all, k);
  }

  /** In a cut file, record `i` can be read exactly when all of its bytes are there. */
  lemma FrameInCut(c: Codec, log: seq<Record>, k: nat, i: nat)
    requires k <= |Frames(c, log)| && i < |log| && c.Fits(log[i])
    requires |Frames(c, log[..i])| <= k
    ensures FrameAt(Frames(c, log)[..k], |Frames(c, log[..i])|) ==
      if |Frames(c, log[..i + 1])| <= k then Some(c.Body(log[i])) else None
  {
    FramesNext(c, log, i);
    FramesPrefix(c, log, i + 1);
    FrameAtCut(Frames(c, log[..i]), c.Body(log[i]), Frames(c, log), k);
  }

  lemma NothingAfterLastComplete(c: Codec, log: seq<Record>, k: nat)
    requires (forall r :: r in log ==> c.Fits(r)) && k <= |Frames(c, log)|
    ensures FrameAt(Frames(c, log)[..k], |Frames(c, log[..Complete(c, log, k)])|) == None
  {
    var m := Complete(c, log, k);
    if m < |log| {
      FrameInCut(c, log, k, m);
    } else {
      assert log[..m] == log;
    }
  }

  lemma ScanHit(c: Codec, data: seq<byte>, at: nat, r: Record, next: nat)
    requires c.Lawful() && at <= |data| && FrameAt(data, at) == Some(c.Body(r))
    requires next == at + |c.Frame(r)|
    ensures GoodEnd(c, data, at) == GoodEnd(c, data, next)
    ensures RecordsFrom(c, data, at) == [r] + RecordsFrom(c, data, next)
  {
    c.BodyReadsBack(r);
  }

  lemma SliceFront(log: seq<Record>, i: nat, m: nat)
    requires i <= m <= |log|
    ensures log[i..m] == if i == m then [] else [log[i]] + log[i + 1..m]
  {
  }

  /** Scanning a cut file from record `i` on stops after the last complete record. */
  lemma {:induction false} ScanOfCut(c: Codec, log: seq<Record>, k: nat, i: nat)
    requires c.Lawful() && (forall r :: r in log ==> c.Fits(r))
    requires k <= |Frames(c, log)| && i <= Complete(c, log, k)
    ensures |Frames(c, log[..i])| <= k
    ensures
      var data, m := Frames(c, log)[..k], Complete(c, log, k);
      && GoodEnd(c, data, |Frames(c, log[..i])|) == |Frames(c, log[..m])|
      && RecordsFrom(c, data, |Frames(c, log[..i])|) == log[i..m]
    decreases |log| - i
  {
    var m := Complete(c, log, k);
    FramesAreMonotone(c, log, i, m);
    SliceFront(log, i, m);
    if i == m {
      NothingAfterLastComplete(c, log, k);
    } else {
      FramesAreMonotone(c, log, i + 1, m);
      ScanOfCut(c, log, k, i + 1);
      FrameInCut(c, log, k, i);
      FramesNext(c, log, i);
      ScanHit(c, Frames(c, log)[..k], |Frames(c, log[..i])|, log[i], |Frames(c, log[..i + 1])|);
    }
  }

  /** `file` is the first `k` bytes of the journal of `log`. */
  ghost predicate IsCut(c: Codec, log: seq<Record>, k: nat, file: seq<byte>) {
    && c.Lawful()
    && (forall r :: r in log ==> c.Fits(r))
    && k <= |Frames(c, log)|
    && file == Frames(c, log)[..k]
  }

  /** Whatever point a crash cut the file at, the usable part is exactly the complete records,
      and reading the repaired file gives those records back. */
  lemma CutKeepsCompleteRecords(c: Codec, log: seq<Record>, k: nat)
    requires k <= |Frames(c, log)| && IsCut(c, log, k, Frames(c, log)[..k])
    ensures
      var data, m := Frames(c, log)[..k], Complete(c, log, k);
      && data[..GoodEnd(c, data, 0)] == Frames(c, log[..m])
      && RecordsFrom(c, Frames(c, log[..m]), 0) == log[..m]
  {
    var m := Complete(c, log, k);
    assert log[..0] == [];
    ScanOfCut(c, log, k, 0);
    FramesPrefix(c, log, m);
    FramesReadBack(c, log[..m]);
  }

  lemma FramesReadBack(c: Codec, log: seq<Record>)
    requires c.Lawful() && forall r :: r in log ==> c.Fits(r)
    ensures RecordsFrom(c, Frames(c, log), 0) == log
  {
    var size := |Frames(c, log)|;
    assert log[..0] == [] && log[..|log|] == log;
    assert Complete(c, log, size) == |log|;
    assert Frames(c, log)[..size] == Frames(c, log);
    ScanOfCut(c, log, size, 0);
  }

  /** A frame reads back exactly when its body is shorter than 2^32 bytes. */
  lemma FrameReadsBackIff(c: Codec, r: Record)
    ensures FrameAt(c.Frame(r), 0) == Some(c.Body(r)) <==> c.Fits(r)
  {
    Uint32ReadsBack(|c.Body(r)|);
    var f := c.Frame(r);
    assert f[0..4] == PutUint32(|c.Body(r)|);
    assert f[4 .. 4 + |c.Body(r)|] == c.Body(r);
  }

  lemma PrependThenAppend(a: seq<Record>, r: Record, b: seq<Record>)
    ensures a + ([r] + b) == a + [r] + b
  {
  }

  // ----- The file object

  class ChainDB {
    const codec: Codec
    var data: seq<byte>
    var pos: nat

    /** The records appended so far. */
    ghost var records: seq<Record>

    ghost predicate InFile()
      reads this
    {
      pos <= |data|
    }

    /** The file holds exactly the frames of the records and the cursor is at its end. */
    ghost predicate Valid()
      reads this
    {
      data == Frames(codec, records) && pos == |data|
    }

    /** Opens a file and drops an unusable tail.  When the file is what appending `log` left
        behind, cut after `k` bytes, exactly its complete records remain. */
    constructor Open(codec: Codec, file: seq<byte>, ghost log: seq<Record>, ghost k: nat)
      ensures this.codec == codec
      ensures data == file[..GoodEnd(codec, file, 0)] && pos == |data|
      ensures IsCut(codec, log, k, file) ==>
        Valid() && records == log[..Complete(codec, log, k)] && RecordsFrom(codec, data, 0) == records
    {
      this.codec := codec;
      data, pos := file, 0;
      records := log[..Complete(codec, log, k)];
      new;
      if IsCut(codec, log, k, file) {
        CutKeepsCompleteRecords(codec, log, k);
      }
      Repair();
    }

    /** Reads `n` bytes, or fails with the cursor at the end of the file. */
    method ReadFull(n: nat) returns (buf: Option<seq<byte>>)
      requires InFile()
      modifies this`pos
      ensures InFile()
      ensures old(pos) + n <= |data| ==> buf == Some(data[old(pos) .. old(pos) + n]) && pos == old(pos) + n
      ensures old(pos) + n > |data| ==> buf == None && pos == |data|
    {
      if pos + n <= |data| {
        buf := Some(data[pos .. pos + n]);
        pos := pos + n;
      } else {
        buf := None;
        pos := |data|;
      }
    }

    /** Reads one frame; the cursor has moved past it when it succeeds. */
    method ReadFrame() returns (body: Option<seq<byte>>)
      requires InFile()
      modifies this`pos
      ensures InFile() && body == FrameAt(data, old(pos))
      ensures body.Some? ==> pos == old(pos) + 4 + |body.value|
    {
      var lenBuf := ReadFull(4);
      if lenBuf == None {
        return None;
      }
      body := ReadFull(Uint32(lenBuf.value));
    }

    method Repair()
      requires InFile()
      modifies this`data, this`pos
      ensures data == old(data)[..GoodEnd(codec, old(data), 0)] && pos == |data|
    {
      pos := 0;
      var goodEnd := 0;
      while true
        invariant data == old(data) && pos == goodEnd <= |data|
        invariant GoodEnd(codec, data, goodEnd) == GoodEnd(codec, data, 0)
        decreases |data| - goodEnd
      {
        var body := ReadFrame();
        if body == None || codec.decodeBlock(body.value) == None {
          break;
        }
        goodEnd := goodEnd + 4 + |body.value|;
      }
      data := data[..goodEnd];
      pos := goodEnd;
    }

    method Write(bytes: seq<byte>)
      requires InFile()
      modifies this`data, this`pos
      ensures InFile() && pos == old(pos) + |bytes|
      ensures data == old(data)[..old(pos)] + bytes
        + (if pos <= |old(data)| then old(data)[pos..] else [])
    {
      var end := pos + |bytes|;
      data := data[..pos] + bytes + if end <= |data| then data[end..] else [];
      pos := end;
    }

    /** Appends one record to a file whose cursor is at the end. */
    method Append(r: Record)
      requires Valid()
      modifies this
      ensures Valid() && records == old(records) + [r]
    {
      var body := codec.Body(r);
      Write(PutUint32(|body|));
      Write(body);
      assert (records + [r])[..|records|] == records;
      records := records + [r];
    }

    method ReadAll() returns (all: seq<Record>)
      requires InFile()
      modifies this`pos
      ensures all == RecordsFrom(codec, data, 0) && pos == |data|
    {
      pos := 0;
      all := [];
      while true
        invariant pos <= |data|
        invariant RecordsFrom(codec, data, 0) == all + RecordsFrom(codec, data, pos)
        decreases |data| - pos
      {
        ghost var at := pos;
        var body := ReadFrame();
        if body == None {
          assert RecordsFrom(codec, data, at) == [];
          break;
        }
        var r := codec.RecordIn(body.value);
        if r == None {
          assert RecordsFrom(codec, data, at) == [];
          break;
        }
        assert RecordsFrom(codec, data, at) == [r.value] + RecordsFrom(codec, data, pos);
        PrependThenAppend(all, r.value, RecordsFrom(codec, data, pos));
        all := all + [r.value];
      }
      pos := |data|;
    }

    method Truncate()
      modifies this
      ensures Valid() && records == []
    {
      data := [];
      pos := 0;
      records := [];
    }
  }
}

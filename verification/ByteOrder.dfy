/** Byte order: what addresses and round-change certificates are sorted by. */
module ByteOrder {
  import opened Primitives

  /** `a` comes before `b` in byte order. */
  predicate Less(a: seq<byte>, b: seq<byte>) {
    b != [] && (a == [] || a[0] < b[0] || (a[0] == b[0] && Less(a[1..], b[1..])))
  }

  lemma {:induction false} LessIsAsymmetric(a: seq<byte>, b: seq<byte>)
    requires Less(a, b)
    ensures !Less(b, a)
  {
    if a != [] && a[0] == b[0] {
      LessIsAsymmetric(a[1..], b[1..]);
    }
  }

  lemma {:induction false} LessIsTransitive(a: seq<byte>, b: seq<byte>, c: seq<byte>)
    requires Less(a, b) && Less(b, c)
    ensures Less(a, c)
  {
    if a != [] && a[0] == b[0] == c[0] {
      LessIsTransitive(a[1..], b[1..], c[1..]);
    }
  }

  lemma {:induction false} LessIsTotal(a: seq<byte>, b: seq<byte>)
    ensures a == b || Less(a, b) || Less(b, a)
  {
    if a != [] && b != [] && a[0] == b[0] {
      LessIsTotal(a[1..], b[1..]);
      assert a == [a[0]] + a[1..] && b == [b[0]] + b[1..];
    }
  }

  ghost predicate IsSorted(keys: seq<seq<byte>>) {
    forall i, j :: 0 <= i < j < |keys| ==> !Less(keys[j], keys[i])
  }

  /** Inserting a key before the first greater one keeps a list sorted. */
  lemma InsertKeepsSorted(keys: seq<seq<byte>>, i: nat, x: seq<byte>)
    requires IsSorted(keys) && i <= |keys|
    requires forall k :: 0 <= k < i ==> !Less(x, keys[k])
    requires i < |keys| ==> Less(x, keys[i])
    ensures IsSorted(keys[..i] + [x] + keys[i..])
  {
    forall k | i <= k < |keys|
      ensures !Less(keys[k], x)
    {
      if Less(keys[k], x) {
        LessIsTransitive(keys[k], x, keys[i]);
        LessIsAsymmetric(keys[k], x);
      }
    }
  }

  lemma FirstIsLeast(s: seq<seq<byte>>, x: seq<byte>)
    requires IsSorted(s) && x in s
    ensures x == s[0] || Less(s[0], x)
  {
    LessIsTotal(s[0], x);
  }

  lemma SameFirst(s: seq<seq<byte>>, t: seq<seq<byte>>)
    requires IsSorted(s) && IsSorted(t) && s != [] && t != [] && s[0] in t && t[0] in s
    ensures s[0] == t[0]
  {
    FirstIsLeast(s, t[0]);
    FirstIsLeast(t, s[0]);
    if Less(s[0], t[0]) {
      LessIsAsymmetric(s[0], t[0]);
    }
  }

  lemma WithoutFirst(s: seq<seq<byte>>)
    requires s != [] && IsSorted(s)
    ensures IsSorted(s[1..]) && multiset(s[1..]) == multiset(s) - multiset{s[0]}
  {
    var rest := s[1..];
    assert s == [s[0]] + rest;
    assert forall i :: 0 <= i < |rest| ==> rest[i] == s[i + 1];
  }

  /** Sorting leaves no choice about the keys. */
  lemma {:induction false} SortedIsUnique(s: seq<seq<byte>>, t: seq<seq<byte>>)
    requires IsSorted(s) && IsSorted(t) && multiset(s) == multiset(t)
    ensures s == t
  {
    assert |s| == |multiset(s)| == |t|;
    if s != [] {
      assert s[0] in multiset(t) && t[0] in multiset(s);
      SameFirst(s, t);
      WithoutFirst(s);
      WithoutFirst(t);
      SortedIsUnique(s[1..], t[1..]);
      assert s == [s[0]] + s[1..] && t == [t[0]] + t[1..];
    }
  }
}

/** Sequences without their duplicates, in the order of first occurrence. */
module Uniqueness {
  /** The elements in the order of their first occurrence. */
  function Dedup<T(==)>(s: seq<T>): seq<T> {
    if s == [] then []
    else
      var d := Dedup(s[..|s| - 1]);
      if s[|s| - 1] in d then d else d + [s[|s| - 1]]
  }

  lemma DedupOneMore<T>(s: seq<T>, x: T)
    ensures Dedup(s + [x]) == if x in Dedup(s) then Dedup(s) else Dedup(s) + [x]
  {
    assert (s + [x])[..|s|] == s;
  }

  ghost predicate NoDuplicates<T>(s: seq<T>) {
    forall i, j | 0 <= i < j < |s| :: s[i] != s[j]
  }

  /** `x` occurs in `s`, first at `i`. */
  ghost predicate FirstAt<T>(s: seq<T>, x: T, i: nat) {
    i < |s| && s[i] == x && forall j | 0 <= j < i :: s[j] != x
  }

  lemma {:induction false} DedupKeepsFirst<T>(s: seq<T>)
    ensures NoDuplicates(Dedup(s))
    ensures forall x :: x in Dedup(s) <==> x in s
    ensures Dedup(s) == [] <==> s == []
    decreases |s|
  {
    if s != [] {
      var before, last := s[..|s| - 1], s[|s| - 1];
      DedupKeepsFirst(before);
      assert s == before + [last];
    }
  }

  /** Of two elements kept, the one that occurs first comes first. */
  lemma {:induction false} DedupInOrder<T>(s: seq<T>, a: nat, b: nat, i: nat, j: nat)
    requires a < b < |Dedup(s)| && FirstAt(s, Dedup(s)[a], i) && FirstAt(s, Dedup(s)[b], j)
    ensures i < j
    decreases |s|
  {
    var before, last := s[..|s| - 1], s[|s| - 1];
    var d := Dedup(before);
    DedupKeepsFirst(before);
    assert s == before + [last];
    assert d[a] in before;
    if b < |d| {
      assert d[b] in before;
      assert FirstAt(before, d[a], i) && FirstAt(before, d[b], j) by {
        FirstInPrefix(before, last, d[a], i);
        FirstInPrefix(before, last, d[b], j);
      }
      DedupInOrder(before, a, b, i, j);
    } else {
      FirstInPrefix(before, last, d[a], i);
      assert last !in before;
      assert forall k | 0 <= k < |before| :: s[k] == before[k] && before[k] in before;
    }
  }

  lemma FirstInPrefix<T>(before: seq<T>, last: T, x: T, i: nat)
    requires x in before && FirstAt(before + [last], x, i)
    ensures FirstAt(before, x, i)
  {
    var k :| 0 <= k < |before| && before[k] == x;
    assert (before + [last])[k] == x;
    assert forall j | 0 <= j < |before| :: (before + [last])[j] == before[j];
  }

  lemma {:induction false} DedupOfDistinct<T>(s: seq<T>)
    requires NoDuplicates(s)
    ensures Dedup(s) == s
    decreases |s|
  {
    if s != [] {
      var before, last := s[..|s| - 1], s[|s| - 1];
      DedupOfDistinct(before);
      assert last !in before;
      assert s == before + [last];
    }
  }

  /** Removing duplicates at every step of a union is the same as once at the end. */
  lemma {:induction false} DedupAbsorbs<T>(a: seq<T>, b: seq<T>)
    ensures Dedup(Dedup(a) + b) == Dedup(a + b)
    decreases |b|
  {
    if b == [] {
      assert a + b == a && Dedup(a) + b == Dedup(a);
      DedupKeepsFirst(a);
      DedupOfDistinct(Dedup(a));
    } else {
      var before, last := b[..|b| - 1], b[|b| - 1];
      DedupAbsorbs(a, before);
      assert (a + b)[..|a + b| - 1] == a + before;
      assert (Dedup(a) + b)[..|Dedup(a) + b| - 1] == Dedup(a) + before;
    }
  }
}

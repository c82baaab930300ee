/** Stretches of sequences and sequences of sequences. */
module Sequences {
  /** `s.slice(lo, hi)`: an offset past the end is clamped, and crossing ones give nothing. */
  function Slice<T>(s: seq<T>, lo: nat, hi: nat): seq<T> {
    var end := if hi < |s| then hi else |s|;
    if lo < end then s[lo..end] else []
  }

  function Concat<T>(parts: seq<seq<T>>): seq<T> {
    if parts == [] then [] else parts[0] + Concat(parts[1..])
  }

  lemma ConcatAppend<T>(parts: seq<seq<T>>, part: seq<T>)
    ensures Concat(parts + [part]) == Concat(parts) + part
  {
    if parts == [] {
      assert parts + [part] == [part];
    } else {
      assert (parts + [part])[1..] == parts[1..] + [part];
      ConcatAppend(parts[1..], part);
    }
  }

  lemma ConcatAssoc<T>(a: seq<T>, b: seq<T>, c: seq<T>)
    ensures a + (b + c) == (a + b) + c
  {
  }
}

/** White space and trimming, as JavaScript defines them for strings. */
module Whitespace {
  import opened Text

  /** The code units `String.prototype.trim` removes and `\s` matches. */
  predicate IsSpace(c: CodeUnit) {
    || 9 <= c <= 13 || c == 32 || c == 160 || c == 0x1680 || 0x2000 <= c <= 0x200a
    || c == 0x2028 || c == 0x2029 || c == 0x202f || c == 0x205f || c == 0x3000 || c == 0xfeff
  }

  /** The white space and line terminators of sections 12.2 and 12.3 of the ECMAScript Language Specification. */
  lemma SpacesAre(c: CodeUnit)
    ensures IsSpace(c) <==>
      || c in {0x0009, 0x000B, 0x000C, 0x0020, 0x00A0, 0xFEFF}
      || c in {0x1680, 0x202F, 0x205F, 0x3000} || 0x2000 <= c <= 0x200A
      || c in {0x000A, 0x000D, 0x2028, 0x2029}
  {
  }

  function TrimStart(s: Text): (t: Text)
    ensures |t| <= |s|
    ensures t != [] ==> !IsSpace(t[0])
  {
    if s != [] && IsSpace(s[0]) then TrimStart(s[1..]) else s
  }

  function TrimEnd(s: Text): (t: Text)
    ensures |t| <= |s|
    ensures t != [] ==> t[0] == s[0] && !IsSpace(t[|t| - 1])
  {
    if s != [] && IsSpace(s[|s| - 1]) then TrimEnd(s[..|s| - 1]) else s
  }

  function Trim(s: Text): (t: Text)
    ensures |t| <= |s|
    ensures t != [] ==> !IsSpace(t[0]) && !IsSpace(t[|t| - 1])
  {
    TrimEnd(TrimStart(s))
  }

  /** `t` is `s[lo..hi]`, around it is nothing but white space, and it neither begins nor ends with any. */
  predicate IsTrimmedTo(t: Text, s: Text, lo: nat, hi: nat) {
    && lo <= hi <= |s| && t == s[lo..hi]
    && (forall k | 0 <= k < lo :: IsSpace(s[k]))
    && (forall k | hi <= k < |s| :: IsSpace(s[k]))
    && (lo < hi ==> !IsSpace(s[lo]) && !IsSpace(s[hi - 1]))
  }

  /** Trimming cuts off white space at the start, and nothing else. */
  lemma {:induction false} TrimStartIsSlice(s: Text) returns (lo: nat)
    ensures lo <= |s| && TrimStart(s) == s[lo..]
    ensures forall k | 0 <= k < lo :: IsSpace(s[k])
    decreases |s|
  {
    if s != [] && IsSpace(s[0]) {
      lo := TrimStartIsSlice(s[1..]);
      assert forall k | 1 <= k <= lo :: s[k] == s[1..][k - 1];
      lo := lo + 1;
    } else {
      lo := 0;
    }
  }

  lemma {:induction false} TrimEndIsSlice(s: Text) returns (hi: nat)
    ensures hi <= |s| && TrimEnd(s) == s[..hi]
    ensures forall k | hi <= k < |s| :: IsSpace(s[k])
    decreases |s|
  {
    if s != [] && IsSpace(s[|s| - 1]) {
      hi := TrimEndIsSlice(s[..|s| - 1]);
    } else {
      hi := |s|;
    }
  }

  lemma TrimIsTrimmed(s: Text) returns (lo: nat, hi: nat)
    ensures IsTrimmedTo(Trim(s), s, lo, hi)
  {
    lo := TrimStartIsSlice(s);
    var tail := s[lo..];
    var length := TrimEndIsSlice(tail);
    hi := lo + length;
    assert Trim(s) == s[lo..hi];
    assert forall k | hi <= k < |s| :: s[k] == tail[k - lo];
  }

  /** The code units that are not white space, in order. */
  function NonSpace(s: Text): Text {
    if s == [] then [] else (if IsSpace(s[0]) then [] else [s[0]]) + NonSpace(s[1..])
  }

  lemma {:induction false} NonSpaceConcat(a: Text, b: Text)
    ensures NonSpace(a + b) == NonSpace(a) + NonSpace(b)
    decreases |a|
  {
    if a == [] {
      assert a + b == b;
    } else {
      var first := if IsSpace(a[0]) then [] else [a[0]];
      assert (a + b)[1..] == a[1..] + b;
      NonSpaceConcat(a[1..], b);
      assert first + (NonSpace(a[1..]) + NonSpace(b)) == (first + NonSpace(a[1..])) + NonSpace(b);
    }
  }

  lemma {:induction false} NonSpaceOfSpace(s: Text)
    requires forall k | 0 <= k < |s| :: IsSpace(s[k])
    ensures NonSpace(s) == []
    decreases |s|
  {
    if s != [] {
      NonSpaceOfSpace(s[1..]);
    }
  }

  lemma NonSpaceOfTrim(s: Text)
    ensures NonSpace(Trim(s)) == NonSpace(s)
  {
    var lo, hi := TrimIsTrimmed(s);
    assert s == s[..lo] + (s[lo..hi] + s[hi..]);
    NonSpaceConcat(s[..lo], s[lo..hi] + s[hi..]);
    NonSpaceConcat(s[lo..hi], s[hi..]);
    NonSpaceOfSpace(s[..lo]);
    NonSpaceOfSpace(s[hi..]);
  }
}

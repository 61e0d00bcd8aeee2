// The tails of stderr and stdout that are surfaced in a tool result
// (internal/sandbox/stderr.go), against the UTF-8 grammar of section 4 of RFC 3629. The text
// of the two markers is a parameter; both are ASCII.

module Utf8Tail {
  type Bytes = seq<bv8>

  const STDERR_RESULT_LIMIT: nat := 16 * 1024
  const STDOUT_RESULT_LIMIT: nat := 32 * 1024

  // ---------------------------------------------------------------- section 4 of RFC 3629

  predicate IsTail(b: bv8) {
    0x80 <= b <= 0xBF
  }

  predicate TailsAt(s: Bytes, i: nat, n: nat) {
    i + n <= |s| && forall k :: i <= k < i + n ==> IsTail(s[k])
  }

  /** The length of the UTF8-char s begins with; 0 if it begins with none. */
  function CharLength(s: Bytes): (n: nat)
    ensures n <= |s| && n <= 4
  {
    if s == [] then 0
    else if s[0] <= 0x7F then 1
    else if 0xC2 <= s[0] <= 0xDF && TailsAt(s, 1, 1) then 2
    else if TailsAt(s, 1, 2) && ((s[0] == 0xE0 && 0xA0 <= s[1]) || (0xE1 <= s[0] <= 0xEC)
                                 || (s[0] == 0xED && s[1] <= 0x9F) || (0xEE <= s[0] <= 0xEF)) then 3
    else if TailsAt(s, 1, 3) && ((s[0] == 0xF0 && 0x90 <= s[1]) || (0xF1 <= s[0] <= 0xF3)
                                 || (s[0] == 0xF4 && s[1] <= 0x8F)) then 4
    else 0
  }

  predicate ValidUtf8(s: Bytes)
    decreases |s|
  {
    s == [] || (CharLength(s) > 0 && ValidUtf8(s[CharLength(s)..]))
  }

  lemma CharShape(s: Bytes)
    requires CharLength(s) > 0
    ensures !IsTail(s[0]) && forall k :: 1 <= k < CharLength(s) ==> IsTail(s[k])
  {}

  predicate IsBoundary(s: Bytes, j: nat) {
    j <= |s| && (j < |s| ==> !IsTail(s[j]))
  }

  lemma BoundaryIsPastChar(s: Bytes, i: nat)
    requires ValidUtf8(s) && IsBoundary(s, i) && i > 0
    ensures s != [] && CharLength(s) <= i
  {
    CharShape(s);
  }

  lemma DropDrop(s: Bytes, n: nat, i: nat)
    requires n <= i <= |s|
    ensures s[n..][i - n..] == s[i..]
  {}

  /** A valid text may be cut wherever a byte is not a continuation byte. */
  lemma {:induction false} SuffixIsValid(s: Bytes, i: nat)
    requires ValidUtf8(s) && IsBoundary(s, i)
    ensures ValidUtf8(s[i..])
    decreases |s|
  {
    if i == 0 {
      assert s[0..] == s;
    } else {
      BoundaryIsPastChar(s, i);
      var n := CharLength(s);
      assert i < |s| ==> s[n..][i - n] == s[i];
      SuffixIsValid(s[n..], i - n);
      DropDrop(s, n, i);
    }
  }

  /** Nor is such a place, or the end, ever more than three bytes away. */
  lemma {:induction false} BoundaryIsNear(s: Bytes, i: nat) returns (j: nat)
    requires ValidUtf8(s) && i <= |s|
    ensures i <= j <= i + 3 && IsBoundary(s, j)
    decreases |s|
  {
    if i == |s| {
      return i;
    }
    var n := CharLength(s);
    CharShape(s);
    if i == 0 {
      j := 0;
    } else if i < n {
      j := n;
      if n < |s| {
        CharShape(s[n..]);
      }
    } else {
      j := BoundaryIsNear(s[n..], i - n);
      j := j + n;
    }
  }

  lemma {:induction false} ValidAppend(a: Bytes, b: Bytes)
    requires ValidUtf8(a) && ValidUtf8(b)
    ensures ValidUtf8(a + b)
    decreases |a|
  {
    if a == [] {
      assert a + b == b;
    } else {
      var n := CharLength(a);
      assert forall k :: 0 <= k < |a| ==> (a + b)[k] == a[k];
      assert CharLength(a + b) == n;
      assert (a + b)[n..] == a[n..] + b;
      ValidAppend(a[n..], b);
    }
  }

  predicate Ascii(s: Bytes) {
    forall k :: 0 <= k < |s| ==> s[k] <= 0x7F
  }

  lemma {:induction false} AsciiIsValid(s: Bytes)
    requires Ascii(s)
    ensures ValidUtf8(s)
    decreases |s|
  {
    if s != [] {
      AsciiIsValid(s[1..]);
    }
  }

  // ---------------------------------------------------------------- the code

  /** Both functions' condition on a byte. */
  predicate IsContinuation(b: bv8) {
    b & 0xC0 == 0x80
  }

  lemma ContinuationIsTail(b: bv8)
    ensures IsContinuation(b) <==> IsTail(b)
  {}

  /** The place to cut at: the first byte from off that is not a continuation byte. */
  ghost predicate IsCut(s: Bytes, off: nat, cut: nat) {
    && off <= cut && IsBoundary(s, cut)
    && forall k :: off <= k < cut ==> IsTail(s[k])
  }

  method TailFrom(b: Bytes, limit: nat) returns (off: nat)
    requires limit < |b|
    ensures IsCut(b, |b| - limit, off)
  {
    off := |b| - limit;
    while off < |b| && IsContinuation(b[off])
      invariant |b| - limit <= off <= |b|
      invariant forall k :: |b| - limit <= k < off ==> IsTail(b[k])
    {
      ContinuationIsTail(b[off]);
      off := off + 1;
    }
    if off < |b| {
      ContinuationIsTail(b[off]);
    }
  }

  /** The text surfaced for b: all of it, or the marker and what follows the cut. */
  ghost predicate Surfaces(r: Bytes, b: Bytes, limit: nat, marker: Bytes) {
    if |b| <= limit then r == b
    else exists cut: nat :: IsCut(b, |b| - limit, cut) && r == marker + b[cut..]
  }

  method TailStderr(b: Bytes, marker: Bytes) returns (r: Bytes)
    ensures Surfaces(r, b, STDERR_RESULT_LIMIT, marker)
  {
    if |b| <= STDERR_RESULT_LIMIT {
      return b;
    }
    var off := TailFrom(b, STDERR_RESULT_LIMIT);
    r := marker + b[off..];
  }

  method TailStdout(s: Bytes, marker: Bytes) returns (r: Bytes)
    ensures Surfaces(r, s, STDOUT_RESULT_LIMIT, marker)
  {
    if |s| <= STDOUT_RESULT_LIMIT {
      return s;
    }
    var off := TailFrom(s, STDOUT_RESULT_LIMIT);
    r := marker + s[off..];
  }

  // ---------------------------------------------------------------- what is promised

  /** Of any bytes over the limit the tail is a suffix within it and starts no codepoint halfway. */
  lemma TailOfAnyBytes(b: Bytes, limit: nat, cut: nat)
    requires limit < |b| && IsCut(b, |b| - limit, cut)
    ensures b == b[..cut] + b[cut..] && |b[cut..]| <= limit
    ensures b[cut..] != [] ==> !IsContinuation(b[cut..][0])
    ensures b[cut..] == [] <==> forall k :: |b| - limit <= k < |b| ==> IsContinuation(b[k])
  {}

  /** Of valid UTF-8 it is valid UTF-8 and at most three bytes short of the limit. */
  lemma TailOfValidText(b: Bytes, limit: nat, cut: nat)
    requires ValidUtf8(b) && limit < |b| && IsCut(b, |b| - limit, cut)
    ensures ValidUtf8(b[cut..])
    ensures limit - 3 <= |b[cut..]| <= limit
  {
    SuffixIsValid(b, cut);
    var near := BoundaryIsNear(b, |b| - limit);
  }

  /** Valid text stays valid with the marker before it, and short text is untouched. */
  lemma SurfacedTextIsValid(r: Bytes, b: Bytes, limit: nat, marker: Bytes)
    requires ValidUtf8(b) && Ascii(marker) && Surfaces(r, b, limit, marker)
    ensures ValidUtf8(r)
    ensures |r| <= limit + |marker|
  {
    if limit < |b| {
      var cut: nat :| IsCut(b, |b| - limit, cut) && r == marker + b[cut..];
      TailOfValidText(b, limit, cut);
      AsciiIsValid(marker);
      ValidAppend(marker, b[cut..]);
    }
  }
}

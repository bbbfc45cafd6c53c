/**
 * The string operations of JavaScript that the form shaping relies on:
 * `String.prototype.trim`, `String.prototype.split` with a one-character
 * separator, and `Array.prototype.join` as the partner of `split`.
 */
module Text {

  /**
   * The characters `trim` removes: ECMAScript's WhiteSpace (tab, vertical tab,
   * form feed, space, no-break space, the byte order mark and every character
   * of Unicode category Zs) and LineTerminator (LF, CR, U+2028, U+2029).
   */
  predicate IsWhitespace(c: char) {
    || c == '\t' || c == '\n' || c == '\U{000B}' || c == '\U{000C}' || c == '\r'
    || c == ' ' || c == '\U{00A0}' || c == '\U{1680}'
    || ('\U{2000}' <= c <= '\U{200A}')
    || c == '\U{2028}' || c == '\U{2029}' || c == '\U{202F}' || c == '\U{205F}'
    || c == '\U{3000}' || c == '\U{FEFF}'
  }

  predicate AllWhitespace(s: string) {
    forall i :: 0 <= i < |s| ==> IsWhitespace(s[i])
  }

  /** Neither end of `s` is whitespace. */
  predicate IsTrimmed(s: string) {
    s == [] || (!IsWhitespace(s[0]) && !IsWhitespace(s[|s| - 1]))
  }

  /** The number of whitespace characters `s` starts with. */
  function LeadingWhitespace(s: string): (n: nat)
    ensures n <= |s|
    ensures forall k :: 0 <= k < n ==> IsWhitespace(s[k])
    ensures n < |s| ==> !IsWhitespace(s[n])
  {
    if |s| == 0 || !IsWhitespace(s[0]) then 0
    else
      var n := LeadingWhitespace(s[1..]);
      assert forall k :: 1 <= k < 1 + n ==> s[k] == s[1..][k - 1];
      1 + n
  }

  /** The number of whitespace characters `s` ends with. */
  function TrailingWhitespace(s: string): (n: nat)
    ensures n <= |s|
    ensures forall k :: |s| - n <= k < |s| ==> IsWhitespace(s[k])
    ensures n < |s| ==> !IsWhitespace(s[|s| - 1 - n])
  {
    if |s| == 0 || !IsWhitespace(s[|s| - 1]) then 0
    else
      var n := TrailingWhitespace(s[..|s| - 1]);
      assert forall k :: |s| - 1 - n <= k < |s| - 1 ==> s[k] == s[..|s| - 1][k];
      1 + n
  }

  /**
   * `r` is what is left of `s` once whitespace is cut off at both ends: an
   * infix of `s` starting at `i`, with only whitespace before and after it,
   * and with no whitespace at either of its own ends.
   */
  ghost predicate TrimsAt(s: string, r: string, i: nat) {
    && i + |r| <= |s| && s[i..i + |r|] == r
    && (forall k :: 0 <= k < i ==> IsWhitespace(s[k]))
    && (forall k :: i + |r| <= k < |s| ==> IsWhitespace(s[k]))
    && IsTrimmed(r)
  }

  ghost predicate IsTrimOf(s: string, r: string) {
    exists i: nat :: TrimsAt(s, r, i)
  }

  /** JavaScript's `s.trim()`: whitespace cut off at both ends. */
  function Trim(s: string): (r: string)
    ensures |r| <= |s|
    ensures IsTrimmed(r)
  {
    var lo := LeadingWhitespace(s);
    if lo == |s| then ""
    else
      var hi := |s| - TrailingWhitespace(s);
      assert lo < hi;
      s[lo..hi]
  }

  /** The trim of `s` is the infix that `IsTrimOf` describes. */
  lemma TrimIsInfix(s: string)
    ensures IsTrimOf(s, Trim(s))
  {
    var lo := LeadingWhitespace(s);
    if lo == |s| {
      assert TrimsAt(s, "", |s|);
    } else {
      assert TrimsAt(s, Trim(s), lo);
    }
  }

  /** There is only one way to trim: any infix that `TrimsAt` describes is the trim. */
  lemma TrimUnique(s: string, r: string, i: nat)
    requires TrimsAt(s, r, i)
    ensures Trim(s) == r
  {
  }

  /** Trimming as `IsTrimOf` describes it and as `Trim` computes it agree. */
  lemma TrimCharacterized(s: string, r: string)
    ensures IsTrimOf(s, r) <==> r == Trim(s)
  {
    if IsTrimOf(s, r) {
      var i: nat :| TrimsAt(s, r, i);
      TrimUnique(s, r, i);
    }
    if r == Trim(s) {
      TrimIsInfix(s);
    }
  }

  /** The trim is empty exactly when `s` is all whitespace. */
  lemma TrimEmpty(s: string)
    ensures Trim(s) == [] <==> AllWhitespace(s)
  {
  }

  /** Padding a trimmed string with whitespace and trimming gives it back. */
  lemma TrimOfPadded(a: string, m: string, b: string)
    requires AllWhitespace(a) && AllWhitespace(b) && IsTrimmed(m)
    ensures Trim(a + m + b) == m
  {
    var s := a + m + b;
    assert s[|a|..|a| + |m|] == m;
    assert forall k :: |a| + |m| <= k < |s| ==> s[k] == b[k - |a| - |m|];
    TrimUnique(s, m, |a|);
  }

  /** Whitespace put in front moves where a trim starts, and nothing else. */
  lemma TrimsAtShift(w: string, t: string, r: string, i: nat)
    requires AllWhitespace(w) && TrimsAt(t, r, i)
    ensures TrimsAt(w + t, r, |w| + i)
  {
    var s := w + t;
    assert s[|w| + i..|w| + i + |r|] == r by {
      assert s[|w| + i..|w| + i + |r|] == t[i..i + |r|];
    }
    assert forall k :: 0 <= k < |w| + i ==> IsWhitespace(s[k]) by {
      forall k | 0 <= k < |w| + i ensures IsWhitespace(s[k]) {
        if k >= |w| { assert s[k] == t[k - |w|]; }
      }
    }
    assert forall k :: |w| + i + |r| <= k < |s| ==> IsWhitespace(s[k]) by {
      forall k | |w| + i + |r| <= k < |s| ensures IsWhitespace(s[k]) {
        assert s[k] == t[k - |w|];
      }
    }
  }

  /** Whitespace in front of a string does not change its trim. */
  lemma TrimAfterWhitespace(w: string, t: string)
    requires AllWhitespace(w)
    ensures Trim(w + t) == Trim(t)
  {
    var r := Trim(t);
    TrimIsInfix(t);
    var i: nat :| TrimsAt(t, r, i);
    TrimsAtShift(w, t, r, i);
    TrimUnique(w + t, r, |w| + i);
  }

  /** A character absent from `s` is absent from its trim. */
  lemma TrimKeepsAbsent(s: string, c: char)
    requires c !in s
    ensures c !in Trim(s)
  {
  }

  /** The index of the first `c` in `s`, or `|s|` when there is none (JavaScript's indexOf, with -1 as `|s|`). */
  function IndexOf(s: string, c: char): (i: nat)
    ensures i <= |s|
    ensures i < |s| ==> s[i] == c
    ensures c !in s[..i]
    ensures i == |s| <==> c !in s
  {
    if |s| == 0 then 0
    else if s[0] == c then 0
    else
      var j := IndexOf(s[1..], c);
      assert s[..1 + j] == [s[0]] + s[1..][..j];
      1 + j
  }

  /** JavaScript's `xs.join(sep)`. */
  function Join(xs: seq<string>, sep: string): string {
    if |xs| == 0 then ""
    else if |xs| == 1 then xs[0]
    else xs[0] + sep + Join(xs[1..], sep)
  }

  /**
   * JavaScript's `s.split(sep)` for a one-character separator: the pieces
   * between consecutive separators, always at least one (`"".split(",")` is `[""]`).
   * See JoinOfSplit and SplitOfJoin for the round trips with `Join`.
   */
  function Split(s: string, sep: char): (r: seq<string>)
    ensures |r| >= 1
    ensures forall k :: 0 <= k < |r| ==> sep !in r[k]
    decreases |s|
  {
    var i := IndexOf(s, sep);
    if i == |s| then [s]
    else [s[..i]] + Split(s[i + 1..], sep)
  }

  /** Joining the pieces back with the separator gives the string that was split. */
  lemma {:induction false} JoinOfSplit(s: string, sep: char)
    ensures Join(Split(s, sep), [sep]) == s
    decreases |s|
  {
    var i := IndexOf(s, sep);
    if i < |s| {
      var rest := Split(s[i + 1..], sep);
      var r := [s[..i]] + rest;
      assert Split(s, sep) == r;
      JoinOfSplit(s[i + 1..], sep);
      assert r[0] == s[..i] && r[1..] == rest && |r| > 1;
      assert Join(r, [sep]) == s[..i] + [sep] + Join(rest, [sep]);
      assert s == s[..i] + [sep] + s[i + 1..];
    } else {
      assert Split(s, sep) == [s];
    }
  }

  /** Join of two non-empty lists puts one separator between their joins. */
  lemma {:induction false} JoinAppend(xs: seq<string>, ys: seq<string>, sep: string)
    requires |xs| >= 1 && |ys| >= 1
    ensures Join(xs + ys, sep) == Join(xs, sep) + sep + Join(ys, sep)
    decreases |xs|
  {
    if |xs| == 1 {
      assert (xs + ys)[1..] == ys;
    } else {
      assert (xs + ys)[1..] == xs[1..] + ys;
      JoinAppend(xs[1..], ys, sep);
    }
  }

  /** The first separator of `a + [c] + t` is the one after `a` when `a` has none. */
  lemma {:induction false} IndexOfAfter(a: string, c: char, t: string)
    requires c !in a
    ensures IndexOf(a + [c] + t, c) == |a|
    decreases |a|
  {
    if a != [] {
      assert (a + [c] + t)[1..] == a[1..] + [c] + t;
      IndexOfAfter(a[1..], c, t);
    }
  }

  /** Splitting undoes joining, for pieces that do not contain the separator. */
  lemma {:induction false} SplitOfJoin(xs: seq<string>, sep: char)
    requires |xs| >= 1
    requires forall k :: 0 <= k < |xs| ==> sep !in xs[k]
    ensures Split(Join(xs, [sep]), sep) == xs
    decreases |xs|
  {
    var head := xs[0];
    assert sep !in head;
    if |xs| > 1 {
      var tail := Join(xs[1..], [sep]);
      var s := head + [sep] + tail;
      assert Join(xs, [sep]) == s;
      IndexOfAfter(head, sep, tail);
      assert s[..|head|] == head;
      assert s[|head| + 1..] == tail;
      SplitOfJoin(xs[1..], sep);
      assert Split(s, sep) == [head] + Split(tail, sep);
      assert xs == [head] + xs[1..];
    }
  }

  /** Splitting at a separator splits each side independently. */
  lemma SplitConcat(a: string, b: string, sep: char)
    ensures Split(a + [sep] + b, sep) == Split(a, sep) + Split(b, sep)
  {
    var pa, pb := Split(a, sep), Split(b, sep);
    var xs := pa + pb;
    assert Join(xs, [sep]) == a + [sep] + b by {
      JoinAppend(pa, pb, [sep]);
      JoinOfSplit(a, sep);
      JoinOfSplit(b, sep);
    }
    assert forall k :: 0 <= k < |xs| ==> sep !in xs[k] by {
      forall k | 0 <= k < |xs| ensures sep !in xs[k] {
        if k < |pa| { assert xs[k] == pa[k]; } else { assert xs[k] == pb[k - |pa|]; }
      }
    }
    SplitOfJoin(xs, sep);
  }
}

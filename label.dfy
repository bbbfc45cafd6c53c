/**
 * The label `renderMetrics` shows for a metric key (script.js, line 37):
 * `key.replace(/([A-Z])/g, " $1").replace(/^./, (c) => c.toUpperCase())`,
 * so `bloodPressureRisk` reads `Blood Pressure Risk`.
 */
module Label {

  /** What the character class `[A-Z]` matches: ASCII capitals only. */
  predicate IsUpper(c: char) {
    'A' <= c <= 'Z'
  }

  predicate IsLower(c: char) {
    'a' <= c <= 'z'
  }

  /** `toUpperCase` on one character, for ASCII letters. */
  function ToUpper(c: char): (u: char)
    ensures IsLower(c) ==> IsUpper(u) && u as int == c as int - 32
    ensures !IsLower(c) ==> u == c
  {
    if IsLower(c) then (c as int - 32) as char else c
  }

  function CountUpper(s: string): nat {
    if s == [] then 0 else (if IsUpper(s[0]) then 1 else 0) + CountUpper(s[1..])
  }

  /**
   * `replace(/([A-Z])/g, " $1")`: a space in front of every capital. The result
   * never starts with a capital, since a leading capital gets its space too.
   */
  function SpaceBeforeCapitals(key: string): (r: string)
    ensures |r| == |key| + CountUpper(key)
    ensures r != [] ==> !IsUpper(r[0])
    ensures key != [] && IsUpper(key[0]) ==> r[0] == ' '
    ensures key != [] && !IsUpper(key[0]) ==> r[0] == key[0]
  {
    if key == [] then []
    else if IsUpper(key[0]) then [' ', key[0]] + SpaceBeforeCapitals(key[1..])
    else [key[0]] + SpaceBeforeCapitals(key[1..])
  }

  /** `replace(/^./, (c) => c.toUpperCase())`: the first character upper-cased. */
  function UpperFirst(s: string): (r: string)
    ensures |r| == |s|
    ensures s != [] ==> r[0] == ToUpper(s[0]) && r[1..] == s[1..]
  {
    if s == [] then [] else [ToUpper(s[0])] + s[1..]
  }

  /** The metric label for `key`. */
  function Humanise(key: string): (r: string)
    ensures |r| == |key| + CountUpper(key)
    ensures key != [] && IsUpper(key[0]) ==> r[0] == ' '
    ensures key != [] && !IsUpper(key[0]) ==> r[0] == ToUpper(key[0])
  {
    UpperFirst(SpaceBeforeCapitals(key))
  }

  /** Removes every space that stands right before a capital: the spaces `SpaceBeforeCapitals` inserts. */
  function DropInsertedSpaces(s: string): string {
    if s == [] then []
    else if |s| >= 2 && s[0] == ' ' && IsUpper(s[1]) then DropInsertedSpaces(s[1..])
    else [s[0]] + DropInsertedSpaces(s[1..])
  }

  /** Deleting the inserted spaces undoes the space insertion, spaces of the key itself included. */
  lemma {:induction false} DropInsertedSpacesInverse(key: string)
    ensures DropInsertedSpaces(SpaceBeforeCapitals(key)) == key
  {
    if key != [] {
      var rest := SpaceBeforeCapitals(key[1..]);
      DropInsertedSpacesInverse(key[1..]);
      if IsUpper(key[0]) {
        var s := [' ', key[0]] + rest;
        assert s[1..] == [key[0]] + rest;
        assert ([key[0]] + rest)[1..] == rest;
      } else {
        var s := [key[0]] + rest;
        assert s[1..] == rest;
      }
      assert key == [key[0]] + key[1..];
    }
  }

  /**
   * Deleting the inserted spaces from a label gives back the key with its first
   * character upper-cased.
   */
  lemma HumaniseRecoversKey(key: string)
    ensures DropInsertedSpaces(Humanise(key)) == UpperFirst(key)
  {
    DropInsertedSpacesInverse(key);
    var spaced := SpaceBeforeCapitals(key);
    if key != [] {
      if IsUpper(key[0]) {
        assert UpperFirst(spaced) == spaced;
        assert UpperFirst(key) == key;
      } else {
        var rest := SpaceBeforeCapitals(key[1..]);
        DropInsertedSpacesInverse(key[1..]);
        assert spaced == [key[0]] + rest;
        var shown := [ToUpper(key[0])] + rest;
        assert Humanise(key) == shown;
        assert shown[1..] == rest;
        assert DropInsertedSpaces(shown) == [ToUpper(key[0])] + key[1..];
      }
    }
  }

  /** A key that starts with a capital gets a label that starts with a space. */
  lemma HumaniseLeadingCapital(key: string)
    requires key != [] && IsUpper(key[0])
    ensures |Humanise(key)| == |key| + CountUpper(key) && Humanise(key)[0] == ' ' && Humanise(key)[1] == key[0]
  {
  }

  /** Three camelCase words: the first is capitalised, the other two get a space in front. */
  lemma HumaniseThreeWords(w: string, c1: char, w1: string, c2: char, w2: string)
    requires w != [] && forall k :: 0 <= k < |w| ==> !IsUpper(w[k])
    requires IsUpper(c1) && forall k :: 0 <= k < |w1| ==> !IsUpper(w1[k])
    requires IsUpper(c2) && forall k :: 0 <= k < |w2| ==> !IsUpper(w2[k])
    ensures Humanise(w + [c1] + w1 + [c2] + w2)
         == [ToUpper(w[0])] + w[1..] + [' ', c1] + w1 + [' ', c2] + w2
  {
    var none := "";
    var third := [c2] + w2 + none;
    var second := [c1] + w1 + third;
    var key := w + [c1] + w1 + [c2] + w2;
    assert key == w + second;
    var spaced := w + ([' ', c1] + w1 + ([' ', c2] + w2));
    assert spaced[1..] == w[1..] + [' ', c1] + w1 + [' ', c2] + w2;
    assert SpaceBeforeCapitals(third) == [' ', c2] + w2 by {
      LowerRun(w2, none);
      CapitalWord(c2, w2, none);
      assert w2 + none == w2;
    }
    assert SpaceBeforeCapitals(second) == [' ', c1] + w1 + ([' ', c2] + w2) by {
      CapitalWord(c1, w1, third);
    }
    LowerRun(w, second);
  }

  /** The worked example: `bloodPressureRisk` becomes `Blood Pressure Risk`. */
  lemma HumaniseExample(key: string)
    requires key == "bloodPressureRisk"
    ensures Humanise(key) == "Blood Pressure Risk"
  {
    var w, w1, w2 := "blood", "ressure", "isk";
    assert "Blood Pressure Risk" == [ToUpper(w[0])] + w[1..] + [' ', 'P'] + w1 + [' ', 'R'] + w2;
    assert key == w + ['P'] + w1 + ['R'] + w2;
    assert forall k :: 0 <= k < |w| ==> !IsUpper(w[k]);
    assert forall k :: 0 <= k < |w1| ==> !IsUpper(w1[k]);
    assert forall k :: 0 <= k < |w2| ==> !IsUpper(w2[k]);
    HumaniseThreeWords(w, 'P', w1, 'R', w2);
  }

  /** A capital followed by a run without capitals: `replace` puts one space in front of it. */
  lemma CapitalWord(c: char, a: string, b: string)
    requires IsUpper(c)
    requires forall k :: 0 <= k < |a| ==> !IsUpper(a[k])
    ensures SpaceBeforeCapitals([c] + a + b) == [' ', c] + a + SpaceBeforeCapitals(b)
  {
    assert ([c] + a + b)[1..] == a + b;
    LowerRun(a, b);
  }

  /** A run without capitals passes through `SpaceBeforeCapitals` unchanged. */
  lemma {:induction false} LowerRun(a: string, b: string)
    requires forall k :: 0 <= k < |a| ==> !IsUpper(a[k])
    ensures SpaceBeforeCapitals(a + b) == a + SpaceBeforeCapitals(b)
  {
    if a != [] {
      assert (a + b)[1..] == a[1..] + b;
      LowerRun(a[1..], b);
      assert a == [a[0]] + a[1..];
    } else {
      assert a + b == b;
    }
  }
}

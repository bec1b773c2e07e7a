/** The string operations of Go's `strings` package that the inspector relies on,
    over sequences of characters. */
module Text {

  /** Unicode white space, as `strings.TrimSpace` sees it. */
  predicate IsSpace(c: char) {
    var n := c as int;
    || 0x09 <= n <= 0x0D || n == 0x20 || n == 0x85 || n == 0xA0 || n == 0x1680
    || 0x2000 <= n <= 0x200A || n == 0x2028 || n == 0x2029 || n == 0x202F
    || n == 0x205F || n == 0x3000
  }

  /** The characters of Unicode's White_Space property, and no others. */
  lemma SpaceCharacters(c: char)
    ensures IsSpace(c) <==>
            c in "\t\n\U{B}\U{C}\r \U{85}\U{A0}\U{1680}\U{2000}\U{2001}\U{2002}\U{2003}\U{2004}\U{2005}\U{2006}"
                 + "\U{2007}\U{2008}\U{2009}\U{200A}\U{2028}\U{2029}\U{202F}\U{205F}\U{3000}"
  {
  }

  predicate AllSpace(s: string) {
    forall i | 0 <= i < |s| :: IsSpace(s[i])
  }

  /** Neither end is white space. */
  predicate Trimmed(s: string) {
    s == "" || (!IsSpace(s[0]) && !IsSpace(s[|s| - 1]))
  }

  function TrimLeft(s: string): (r: string)
    ensures |r| <= |s|
    ensures r == "" <==> AllSpace(s)
    ensures r != "" ==> !IsSpace(r[0]) && r[|r| - 1] == s[|s| - 1]
    ensures s != "" && !IsSpace(s[0]) ==> r == s
  {
    if s != "" && IsSpace(s[0]) then
      assert AllSpace(s[1..]) ==> AllSpace(s) by {
        assert forall i | 0 < i < |s| :: s[i] == s[1..][i - 1];
      }
      TrimLeft(s[1..])
    else s
  }

  function TrimRight(s: string): (r: string)
    ensures |r| <= |s|
    ensures r != "" ==> !IsSpace(r[|r| - 1]) && r[0] == s[0]
    ensures s != "" && !IsSpace(s[0]) ==> r != ""
    ensures s != "" && !IsSpace(s[|s| - 1]) ==> r == s
  {
    if s != "" && IsSpace(s[|s| - 1]) then TrimRight(s[..|s| - 1]) else s
  }

  function TrimSpace(s: string): (r: string)
    ensures Trimmed(r)
    ensures Trimmed(s) ==> r == s
    ensures r == "" <==> AllSpace(s)
    ensures |r| <= |s|
  {
    TrimRight(TrimLeft(s))
  }

  lemma {:induction false} TrimLeftSkips(left: string, rest: string)
    requires AllSpace(left) && (rest == "" || !IsSpace(rest[0]))
    ensures TrimLeft(left + rest) == rest
  {
    if left == "" {
      assert left + rest == rest;
    } else {
      TrimLeftSkips(left[1..], rest);
      assert (left + rest)[1..] == left[1..] + rest;
    }
  }

  lemma {:induction false} TrimRightSkips(rest: string, right: string)
    requires AllSpace(right) && (rest == "" || !IsSpace(rest[|rest| - 1]))
    ensures TrimRight(rest + right) == rest
  {
    if right == "" {
      assert rest + right == rest;
    } else {
      var n := |right| - 1;
      var s := rest + right;
      TrimRightSkips(rest, right[..n]);
      assert s[..|s| - 1] == rest + right[..n];
      assert s[|s| - 1] == right[n] && IsSpace(right[n]);
      hide IsSpace;
      assert TrimRight(s) == TrimRight(s[..|s| - 1]);
    }
  }

  /** What trimming means: the one trimmed string that becomes `s` when white space is put at its ends. */
  lemma TrimSpaceIsTheCore(left: string, core: string, right: string)
    requires AllSpace(left) && AllSpace(right) && Trimmed(core)
    ensures TrimSpace(left + core + right) == core
  {
    if core == "" {
      assert left + core + right == left + right;
      TrimLeftSkips(left + right, "");
      assert left + right + "" == left + right;
    } else {
      assert left + core + right == left + (core + right);
      TrimLeftSkips(left, core + right);
      TrimRightSkips(core, right);
    }
  }

  function TrimPrefix(s: string, prefix: string): (r: string)
    ensures if prefix <= s then s == prefix + r else r == s
  {
    if prefix <= s then s[|prefix|..] else s
  }

  predicate HasSuffix(s: string, suffix: string) {
    |suffix| <= |s| && s[|s| - |suffix|..] == suffix
  }

  function TrimSuffix(s: string, suffix: string): (r: string)
    ensures if HasSuffix(s, suffix) then s == r + suffix else r == s
  {
    if HasSuffix(s, suffix) then s[..|s| - |suffix|] else s
  }

  /** The first value that is not blank, trimmed; "" when all are blank. */
  function FirstNonEmpty(values: seq<string>): (r: string)
    ensures Trimmed(r)
  {
    if values == [] then ""
    else if TrimSpace(values[0]) != "" then TrimSpace(values[0])
    else FirstNonEmpty(values[1..])
  }

  /** The first value that is not blank is taken, trimmed; without one there is nothing. */
  lemma {:induction false} FirstNonEmptyIsTheFirst(values: seq<string>, i: nat)
    requires i <= |values| && forall j | 0 <= j < i :: AllSpace(values[j])
    ensures i < |values| && !AllSpace(values[i]) ==> FirstNonEmpty(values) == TrimSpace(values[i])
    ensures i == |values| ==> FirstNonEmpty(values) == ""
  {
    hide TrimSpace, AllSpace;
    if i > 0 {
      assert AllSpace(values[0]);
      assert forall j | 0 <= j < i - 1 :: values[1..][j] == values[j + 1];
      FirstNonEmptyIsTheFirst(values[1..], i - 1);
    }
  }

  /** Put a character in front of the first word. */
  function Prepend(c: char, words: seq<string>): (r: seq<string>)
    requires |words| >= 1
    ensures |r| == |words|
  {
    [[c] + words[0]] + words[1..]
  }

  lemma PrependConcat(c: char, a: seq<string>, b: seq<string>)
    requires |a| >= 1
    ensures Prepend(c, a + b) == Prepend(c, a) + b
  {
    assert (a + b)[1..] == a[1..] + b;
  }

  /** `strings.Split(s, ".")`: always at least one word. */
  function SplitDots(s: string): (words: seq<string>)
    ensures |words| >= 1
    ensures forall w | w in words :: '.' !in w
  {
    if s == "" then [""]
    else
      var rest := SplitDots(s[1..]);
      if s[0] == '.' then [""] + rest else Prepend(s[0], rest)
  }

  function JoinDots(words: seq<string>): string
    requires |words| >= 1
  {
    if |words| == 1 then words[0] else words[0] + "." + JoinDots(words[1..])
  }

  lemma {:induction false} JoinUndoesSplit(s: string)
    ensures JoinDots(SplitDots(s)) == s
  {
    if s != "" {
      JoinUndoesSplit(s[1..]);
      var rest := SplitDots(s[1..]);
      var words := SplitDots(s);
      if s[0] == '.' {
        assert words[1..] == rest;
      } else if |rest| > 1 {
        assert words[1..] == rest[1..];
      }
      assert s == [s[0]] + s[1..];
    }
  }

  lemma SplitStep(c: char, rest: string)
    ensures SplitDots([c] + rest) == if c == '.' then [""] + SplitDots(rest) else Prepend(c, SplitDots(rest))
    ensures SplitDots("") == [""]
  {
    hide Prepend;
    assert ([c] + rest)[1..] == rest;
  }

  /** A dot cuts the words apart, whatever surrounds it. */
  lemma {:induction false} SplitAtDot(a: string, b: string)
    ensures SplitDots(a + "." + b) == SplitDots(a) + SplitDots(b)
  {
    hide Prepend, SplitDots;
    if a == "" {
      assert a + "." + b == ['.'] + b;
      SplitStep('.', b);
    } else {
      SplitAtDot(a[1..], b);
      var x, y := SplitDots(a[1..]), SplitDots(b);
      assert a + "." + b == [a[0]] + (a[1..] + "." + b);
      SplitStep(a[0], a[1..] + "." + b);
      assert a == [a[0]] + a[1..];
      SplitStep(a[0], a[1..]);
      PrependConcat(a[0], x, y);
      assert [""] + (x + y) == ([""] + x) + y;
    }
  }

  lemma {:induction false} SplitDotless(w: string)
    requires '.' !in w
    ensures SplitDots(w) == [w]
  {
    if w != "" {
      SplitDotless(w[1..]);
      assert w == [w[0]] + w[1..];
    }
  }

  lemma {:induction false} SplitUndoesJoin(words: seq<string>)
    requires |words| >= 1 && forall w | w in words :: '.' !in w
    ensures SplitDots(JoinDots(words)) == words
  {
    SplitDotless(words[0]);
    if |words| > 1 {
      SplitUndoesJoin(words[1..]);
      SplitAtDot(words[0], JoinDots(words[1..]));
      assert words == [words[0]] + words[1..];
    }
  }

  lemma SplitInjective(a: string, b: string)
    ensures SplitDots(a) == SplitDots(b) <==> a == b
  {
    JoinUndoesSplit(a);
    JoinUndoesSplit(b);
  }
}

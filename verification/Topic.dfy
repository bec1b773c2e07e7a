/** The AMQP topic filter: a backtracking matcher and what it decides.
    The patterns are those of AMQP 0-9-1, section 3.1.3.3 ("The Topic Exchange Type"). */
module Topic {
  import opened Text

  type Words = seq<string>

  /** The runs of key words one pattern word may take. */
  predicate Takes(word: string, run: Words) {
    if word == "#" then true
    else |run| == 1 && (word == "*" || run[0] == word)
  }

  function Flatten(runs: seq<Words>): Words {
    if runs == [] then [] else runs[0] + Flatten(runs[1..])
  }

  /** `runs` cuts `key` into consecutive runs, one per pattern word. */
  predicate Cuts(pattern: Words, runs: seq<Words>, key: Words) {
    && |runs| == |pattern|
    && Flatten(runs) == key
    && forall i | 0 <= i < |pattern| :: Takes(pattern[i], runs[i])
  }

  /** The meaning of a topic pattern, without reference to any matching strategy. */
  ghost predicate Matches(pattern: Words, key: Words) {
    exists runs :: Cuts(pattern, runs, key)
  }

  // ----- one pattern word at a time

  lemma MatchesEmptyPattern(key: Words)
    ensures Matches([], key) <==> key == []
  {
    assert Cuts([], [], []);
  }

  /** A pattern of one word matches what that word takes. */
  lemma OneWordMatches(word: string, key: Words)
    requires Takes(word, key)
    ensures Matches([word], key)
  {
    var runs := [key];
    assert runs[0] == key && runs[1..] == [];
    assert Flatten(runs) == key + Flatten(runs[1..]) == key;
    forall i | 0 <= i < |[word]| ensures Takes([word][i], runs[i]) {
      assert i == 0;
    }
    assert Cuts([word], runs, key);
  }

  lemma MatchesFirstWord(pattern: Words, key: Words, i: nat)
    requires pattern != [] && i <= |key|
    requires Takes(pattern[0], key[..i]) && Matches(pattern[1..], key[i..])
    ensures Matches(pattern, key)
  {
    var runs :| Cuts(pattern[1..], runs, key[i..]);
    var all := [key[..i]] + runs;
    assert all[1..] == runs && key == key[..i] + key[i..];
    assert Cuts(pattern, all, key);
  }

  lemma FirstWordOfMatch(pattern: Words, key: Words) returns (i: nat)
    requires pattern != [] && Matches(pattern, key)
    ensures i <= |key| && Takes(pattern[0], key[..i]) && Matches(pattern[1..], key[i..])
  {
    var runs :| Cuts(pattern, runs, key);
    i := |runs[0]|;
    assert key[..i] == runs[0] && key[i..] == Flatten(runs[1..]);
    assert Cuts(pattern[1..], runs[1..], key[i..]);
  }

  // ----- the algorithm

  /** The backtracking matcher decides exactly the meaning: sound, complete and terminating. */
  method TopicMatch(pattern: Words, key: Words) returns (ok: bool)
    ensures ok <==> Matches(pattern, key)
    decreases |pattern|
  {
    if |pattern| == 0 {
      MatchesEmptyPattern(key);
      return |key| == 0;
    }
    if pattern[0] == "#" {
      if |pattern| == 1 {
        assert pattern == [pattern[0]];
        OneWordMatches(pattern[0], key);
        return true;
      }
      for i := 0 to |key| + 1
        invariant forall j | 0 <= j < i :: !Matches(pattern[1..], key[j..])
      {
        var rest := TopicMatch(pattern[1..], key[i..]);
        if rest {
          MatchesFirstWord(pattern, key, i);
          return true;
        }
      }
      if Matches(pattern, key) {
        var i := FirstWordOfMatch(pattern, key);
        assert false;
      }
      return false;
    }
    if Matches(pattern, key) {
      var i := FirstWordOfMatch(pattern, key);
      assert i == 1 && key[..1][0] == key[0];
    }
    if |key| == 0 {
      return false;
    }
    if pattern[0] == "*" || pattern[0] == key[0] {
      ok := TopicMatch(pattern[1..], key[1..]);
      if ok { MatchesFirstWord(pattern, key, 1); }
      return;
    }
    return false;
  }

  // ----- algebra of patterns

  lemma {:induction false} FlattenConcat(a: seq<Words>, b: seq<Words>)
    ensures Flatten(a + b) == Flatten(a) + Flatten(b)
  {
    if a == [] {
      assert a + b == b;
    } else {
      FlattenConcat(a[1..], b);
      assert (a + b)[0] == a[0] && (a + b)[1..] == a[1..] + b;
      var x, y, z := a[0], Flatten(a[1..]), Flatten(b);
      assert x + (y + z) == (x + y) + z;
    }
  }

  /** Patterns compose: a concatenated pattern matches exactly the keys that can be cut in two. */
  lemma MatchesConcat(p: Words, q: Words, key: Words)
    ensures Matches(p + q, key) <==> exists i :: 0 <= i <= |key| && Matches(p, key[..i]) && Matches(q, key[i..])
  {
    if Matches(p + q, key) {
      var runs :| Cuts(p + q, runs, key);
      var a, b := runs[..|p|], runs[|p|..];
      assert runs == a + b;
      FlattenConcat(a, b);
      var i := |Flatten(a)|;
      assert key[..i] == Flatten(a) && key[i..] == Flatten(b);
      assert Cuts(p, a, key[..i]);
      assert Cuts(q, b, key[i..]) by {
        assert forall j | 0 <= j < |q| :: q[j] == (p + q)[|p| + j];
      }
    }
    if i :| 0 <= i <= |key| && Matches(p, key[..i]) && Matches(q, key[i..]) {
      var a :| Cuts(p, a, key[..i]);
      var b :| Cuts(q, b, key[i..]);
      FlattenConcat(a, b);
      assert key == key[..i] + key[i..];
      assert Cuts(p + q, a + b, key);
    }
  }

  function Reverse<T>(s: seq<T>): (r: seq<T>)
    ensures |r| == |s| && forall i | 0 <= i < |s| :: r[i] == s[|s| - 1 - i]
  {
    if s == [] then [] else Reverse(s[1..]) + [s[0]]
  }

  lemma ReverseConcat<T>(a: seq<T>, b: seq<T>)
    ensures Reverse(a + b) == Reverse(b) + Reverse(a)
    ensures Reverse(Reverse(a)) == a
  {
    var r := Reverse(b) + Reverse(a);
    assert forall i | 0 <= i < |r| :: r[i] == (a + b)[|r| - 1 - i];
  }

  lemma {:induction false} FlattenReverse(runs: seq<Words>)
    ensures Flatten(Reverse(seq(|runs|, i requires 0 <= i < |runs| => Reverse(runs[i])))) == Reverse(Flatten(runs))
  {
    var rev := seq(|runs|, i requires 0 <= i < |runs| => Reverse(runs[i]));
    if runs != [] {
      var tail := seq(|runs[1..]|, i requires 0 <= i < |runs[1..]| => Reverse(runs[1..][i]));
      assert rev[1..] == tail;
      FlattenReverse(runs[1..]);
      FlattenConcat(Reverse(tail), [rev[0]]);
      assert [rev[0]][1..] == [];
      assert Flatten([rev[0]]) == rev[0];
      ReverseConcat(runs[0], Flatten(runs[1..]));
    }
  }

  lemma TakesReversed(word: string, run: Words)
    ensures Takes(word, Reverse(run)) <==> Takes(word, run)
  {
  }

  lemma MatchesReverseOneWay(pattern: Words, key: Words)
    requires Matches(pattern, key)
    ensures Matches(Reverse(pattern), Reverse(key))
  {
    var runs :| Cuts(pattern, runs, key);
    var rev := seq(|runs|, i requires 0 <= i < |runs| => Reverse(runs[i]));
    FlattenReverse(runs);
    hide Takes, Flatten;
    forall i | 0 <= i < |pattern| ensures Takes(Reverse(pattern)[i], Reverse(rev)[i]) {
      var j := |pattern| - 1 - i;
      TakesReversed(pattern[j], runs[j]);
      assert Reverse(pattern)[i] == pattern[j] && Reverse(rev)[i] == Reverse(runs[j]);
    }
    assert Cuts(Reverse(pattern), Reverse(rev), Reverse(key));
  }

  /** Matching does not care in which direction pattern and key are read. */
  lemma MatchesReverse(pattern: Words, key: Words)
    ensures Matches(Reverse(pattern), Reverse(key)) <==> Matches(pattern, key)
  {
    if Matches(pattern, key) { MatchesReverseOneWay(pattern, key); }
    if Matches(Reverse(pattern), Reverse(key)) {
      MatchesReverseOneWay(Reverse(pattern), Reverse(key));
      ReverseConcat(pattern, []);
      ReverseConcat(key, []);
    }
  }

  lemma MatchesMonotone(before: Words, p: Words, q: Words, after: Words, key: Words)
    requires forall k | Matches(p, k) :: Matches(q, k)
    requires Matches(before + p + after, key)
    ensures Matches(before + q + after, key)
  {
    hide Matches;
    MatchesConcat(before + p, after, key);
    var i :| 0 <= i <= |key| && Matches(before + p, key[..i]) && Matches(after, key[i..]);
    MatchesConcat(before, p, key[..i]);
    var j :| 0 <= j <= i && Matches(before, key[..i][..j]) && Matches(p, key[..i][j..]);
    MatchesConcat(before, q, key[..i]);
    MatchesConcat(before + q, after, key);
  }

  /** Two patterns that match the same keys may replace each other inside any pattern. */
  lemma MatchesCongruence(before: Words, p: Words, q: Words, after: Words, key: Words)
    requires forall k :: Matches(p, k) <==> Matches(q, k)
    ensures Matches(before + p + after, key) <==> Matches(before + q + after, key)
  {
    if Matches(before + p + after, key) { MatchesMonotone(before, p, q, after, key); }
    if Matches(before + q + after, key) { MatchesMonotone(before, q, p, after, key); }
  }

  lemma HashMatchesAnything(key: Words)
    ensures Matches(["#"], key)
  {
    OneWordMatches("#", key);
  }

  lemma StarMatchesOneWord(key: Words)
    ensures Matches(["*"], key) <==> |key| == 1
  {
    if |key| == 1 { OneWordMatches("*", key); }
    if Matches(["*"], key) {
      var i := FirstWordOfMatch(["*"], key);
      MatchesEmptyPattern(key[i..]);
      assert ["*"][1..] == [];
    }
  }

  /** `#.#` may always be shortened to `#`. */
  lemma DoubleHash(before: Words, after: Words, key: Words)
    ensures Matches(before + ["#", "#"] + after, key) <==> Matches(before + ["#"] + after, key)
  {
    forall k ensures Matches(["#", "#"], k) <==> Matches(["#"], k) {
      HashMatchesAnything(k);
      assert k[0..] == k;
      assert ["#", "#"][1..] == ["#"];
      MatchesFirstWord(["#", "#"], k, 0);
    }
    MatchesCongruence(before, ["#", "#"], ["#"], after, key);
  }

  /** `#.*` and `*.#` are interchangeable: both ask for at least one word. */
  lemma HashStarCommute(before: Words, after: Words, key: Words)
    ensures Matches(before + ["#", "*"] + after, key) <==> Matches(before + ["*", "#"] + after, key)
  {
    forall k ensures Matches(["#", "*"], k) <==> Matches(["*", "#"], k) {
      AtLeastOneWord(k);
    }
    MatchesCongruence(before, ["#", "*"], ["*", "#"], after, key);
  }

  lemma AtLeastOneWord(key: Words)
    ensures Matches(["#", "*"], key) <==> |key| >= 1
    ensures Matches(["*", "#"], key) <==> |key| >= 1
  {
    MatchesConcat(["#"], ["*"], key);
    MatchesConcat(["*"], ["#"], key);
    assert ["#"] + ["*"] == ["#", "*"] && ["*"] + ["#"] == ["*", "#"];
    forall i | 0 <= i <= |key|
      ensures Matches(["#"], key[..i]) && (Matches(["*"], key[i..]) <==> |key| - i == 1)
      ensures Matches(["#"], key[i..]) && (Matches(["*"], key[..i]) <==> i == 1)
    {
      HashMatchesAnything(key[..i]);
      HashMatchesAnything(key[i..]);
      StarMatchesOneWord(key[..i]);
      StarMatchesOneWord(key[i..]);
    }
    if |key| >= 1 {
      assert Matches(["*"], key[|key| - 1..]) && Matches(["*"], key[..1]);
    }
  }

  /** A leading `#` takes nothing, or takes one word and stays. */
  lemma HashUnrolls(pattern: Words, key: Words)
    ensures Matches(["#"] + pattern, key)
       <==> Matches(pattern, key) || (key != [] && Matches(["#"] + pattern, key[1..]))
  {
    var p := ["#"] + pattern;
    assert p[1..] == pattern && key[0..] == key;
    if Matches(p, key) {
      var i := FirstWordOfMatch(p, key);
      if i > 0 {
        assert key[i..] == key[1..][i - 1..];
        MatchesFirstWord(p, key[1..], i - 1);
      }
    }
    if Matches(pattern, key) { MatchesFirstWord(p, key, 0); }
    if key != [] && Matches(p, key[1..]) {
      var i := FirstWordOfMatch(p, key[1..]);
      assert key[1..][i..] == key[i + 1..];
      MatchesFirstWord(p, key, i + 1);
    }
  }

  // ----- strings

  /** The filter on strings: the empty pattern matches everything, others match word by word.
      An empty routing key is one empty word. */
  ghost predicate TopicFilter(pattern: string, routingKey: string) {
    pattern == "" || Matches(SplitDots(pattern), SplitDots(routingKey))
  }

  method MatchTopicKey(pattern: string, routingKey: string) returns (ok: bool)
    ensures ok <==> TopicFilter(pattern, routingKey)
  {
    if pattern == "" {
      return true;
    }
    ok := TopicMatch(SplitDots(pattern), SplitDots(routingKey));
  }

  predicate WildcardFree(words: Words) {
    forall w | w in words :: w != "*" && w != "#"
  }

  lemma {:induction false} LiteralsMatchThemselves(words: Words, key: Words)
    requires WildcardFree(words)
    ensures Matches(words, key) <==> words == key
  {
    if words == [] {
      MatchesEmptyPattern(key);
    } else {
      assert WildcardFree(words[1..]) by {
        forall w | w in words[1..] ensures w != "*" && w != "#" { assert w in words; }
      }
      assert words[0] in words;
      if Matches(words, key) {
        var i := FirstWordOfMatch(words, key);
        assert |key[..i]| == 1;
        LiteralsMatchThemselves(words[1..], key[1..]);
        assert key == [key[..1][0]] + key[1..];
        assert words == [words[0]] + words[1..];
      }
      if words == key {
        LiteralsMatchThemselves(words[1..], key[1..]);
        MatchesFirstWord(words, key, 1);
      }
    }
  }

  /** A pattern without wildcard words matches one string: itself. */
  lemma LiteralPattern(pattern: string, key: string)
    requires pattern != "" && WildcardFree(SplitDots(pattern))
    ensures TopicFilter(pattern, key) <==> key == pattern
  {
    LiteralsMatchThemselves(SplitDots(pattern), SplitDots(key));
    SplitInjective(pattern, key);
  }

  /** `P.#` for a literal `P` matches `P` and every key that continues `P.`. */
  lemma LiteralPrefixPattern(prefix: string, key: string)
    requires WildcardFree(SplitDots(prefix))
    ensures TopicFilter(prefix + ".#", key) <==> key == prefix || prefix + "." <= key
  {
    var p, k := SplitDots(prefix), SplitDots(key);
    SplitAtDot(prefix, "#");
    SplitDotless("#");
    assert prefix + "." + "#" == prefix + ".#";
    MatchesConcat(p, ["#"], k);
    forall i | 0 <= i <= |k| ensures Matches(["#"], k[i..]) && (Matches(p, k[..i]) <==> p == k[..i]) {
      HashMatchesAnything(k[i..]);
      LiteralsMatchThemselves(p, k[..i]);
    }
    if p <= k { assert k[..|p|] == p; }
    assert Matches(p + ["#"], k) <==> p <= k;
    WordPrefix(prefix, key);
  }

  /** Being a prefix word by word is being equal or being continued after a dot. */
  lemma WordPrefix(prefix: string, key: string)
    ensures SplitDots(prefix) <= SplitDots(key) <==> key == prefix || prefix + "." <= key
  {
    var p, k := SplitDots(prefix), SplitDots(key);
    if prefix + "." <= key {
      var rest := key[|prefix| + 1..];
      assert key == prefix + "." + rest;
      SplitAtDot(prefix, rest);
    }
    if p <= k {
      if |p| == |k| {
        assert p == k;
        SplitInjective(prefix, key);
      } else {
        var rest := k[|p|..];
        assert k == p + rest;
        JoinUndoesSplit(prefix);
        JoinUndoesSplit(key);
        JoinConcat(p, rest);
      }
    }
  }

  lemma {:induction false} JoinConcat(a: Words, b: Words)
    requires a != [] && b != []
    ensures JoinDots(a + b) == JoinDots(a) + "." + JoinDots(b)
  {
    if |a| == 1 {
      assert (a + b)[1..] == b;
    } else {
      JoinConcat(a[1..], b);
      assert (a + b)[1..] == a[1..] + b;
    }
  }

  /** A lone `*` takes every key without a dot. The empty key is among them: it is one empty word. */
  lemma StarTakesDotlessKeys(key: string)
    ensures TopicFilter("*", key) <==> '.' !in key
  {
    SplitDotless("*");
    StarMatchesOneWord(SplitDots(key));
    if '.' !in key { SplitDotless(key); }
    if |SplitDots(key)| == 1 {
      JoinUndoesSplit(key);
      assert SplitDots(key)[0] in SplitDots(key);
    }
  }
}

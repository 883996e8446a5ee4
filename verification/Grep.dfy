/** The regular-expression matcher of user/grep.c against what its patterns mean. */
module Grep {
  datatype Item = One(c: char) | Star(c: char)

  /** `c` stands for `x`: a dot stands for anything, any other character for itself. */
  predicate Fits(c: char, x: char) { c == '.' || c == x }

  predicate AllFit(c: char, w: seq<char>) { forall i: nat :: i < |w| ==> Fits(c, w[i]) }

  /** A pattern is bound to the end of the text by a last, unstarred `$`. */
  predicate EndBound(re: seq<char>)
    decreases |re|
  {
    if re == [] then false
    else if |re| >= 2 && re[1] == '*' then EndBound(re[2..])
    else re == ['$'] || EndBound(re[1..])
  }

  /** What a pattern lists: starred characters and plain ones; any other `^`, `$` or `*` stands for itself. */
  function Items(re: seq<char>): seq<Item>
    decreases |re|
  {
    if re == [] then []
    else if |re| >= 2 && re[1] == '*' then [Star(re[0])] + Items(re[2..])
    else if re == ['$'] then []
    else [One(re[0])] + Items(re[1..])
  }

  /** `w` is spelled by the items, one after the other. */
  ghost predicate Spells(items: seq<Item>, w: seq<char>)
    decreases |items|
  {
    if items == [] then w == []
    else
      match items[0]
      case One(c) => |w| > 0 && Fits(c, w[0]) && Spells(items[1..], w[1..])
      case Star(c) => exists k: nat :: k <= |w| && AllFit(c, w[..k]) && Spells(items[1..], w[k..])
  }

  /** The pattern matches at the beginning of the text. */
  ghost predicate MatchesHere(re: seq<char>, text: seq<char>) {
    if EndBound(re) then Spells(Items(re), text) else exists n: nat :: n <= |text| && Spells(Items(re), text[..n])
  }

  /** The pattern matches: at the beginning when it starts with `^`, anywhere otherwise. */
  ghost predicate Matches(re: seq<char>, text: seq<char>) {
    if |re| > 0 && re[0] == '^' then MatchesHere(re[1..], text)
    else exists i: nat :: i <= |text| && MatchesHere(re, text[i..])
  }

  // ---------- how a match begins ----------

  lemma EmptyPattern(text: seq<char>)
    ensures MatchesHere([], text)
  {
    assert Spells([], text[..0]);
  }

  lemma EndPattern(text: seq<char>)
    ensures MatchesHere(['$'], text) <==> text == []
  {
    assert EndBound(['$']) && Items(['$']) == [];
  }

  /** A plain character: it fits the first of the text, and the rest matches behind it. */
  lemma OneThen(re: seq<char>, text: seq<char>)
    requires re != [] && !(|re| >= 2 && re[1] == '*') && re != ['$']
    ensures MatchesHere(re, text) <==> |text| > 0 && Fits(re[0], text[0]) && MatchesHere(re[1..], text[1..])
  {
    var rest := Items(re[1..]);
    assert Items(re) == [One(re[0])] + rest && Items(re)[1..] == rest;
    if !EndBound(re) {
      if MatchesHere(re, text) {
        var n: nat :| n <= |text| && Spells(Items(re), text[..n]);
        assert text[..n][1..] == text[1..][..n - 1];
      }
      if |text| > 0 && Fits(re[0], text[0]) && MatchesHere(re[1..], text[1..]) {
        var n: nat :| n <= |text[1..]| && Spells(rest, text[1..][..n]);
        assert text[..n + 1][1..] == text[1..][..n];
        assert Spells(Items(re), text[..n + 1]);
      }
    }
  }

  /** A starred character: it takes some fitting characters, and the rest matches behind them. */
  lemma StarThen(re: seq<char>, text: seq<char>)
    requires |re| >= 2 && re[1] == '*'
    ensures MatchesHere(re, text) <==>
            exists k: nat :: k <= |text| && AllFit(re[0], text[..k]) && MatchesHere(re[2..], text[k..])
  {
    var c, rest := re[0], Items(re[2..]);
    assert Items(re) == [Star(c)] + rest && Items(re)[1..] == rest;
    if !EndBound(re) {
      if MatchesHere(re, text) {
        var n: nat :| n <= |text| && Spells(Items(re), text[..n]);
        var k: nat :| k <= |text[..n]| && AllFit(c, text[..n][..k]) && Spells(rest, text[..n][k..]);
        assert text[..n][..k] == text[..k] && text[..n][k..] == text[k..][..n - k];
        assert MatchesHere(re[2..], text[k..]);
      }
      if k: nat :| k <= |text| && AllFit(c, text[..k]) && MatchesHere(re[2..], text[k..]) {
        var n: nat :| n <= |text[k..]| && Spells(rest, text[k..][..n]);
        var w := text[..k + n];
        assert w[..k] == text[..k] && w[k..] == text[k..][..n];
        assert Spells(Items(re), w);
      }
    } else if MatchesHere(re, text) {
      var k: nat :| k <= |text| && AllFit(c, text[..k]) && Spells(rest, text[k..]);
      assert MatchesHere(re[2..], text[k..]);
    }
  }

  // ---------- the matcher ----------

  method MatchHere(re: seq<char>, text: seq<char>) returns (m: bool)
    ensures m <==> MatchesHere(re, text)
    decreases |re|, 0
  {
    if |re| == 0 {
      EmptyPattern(text);
      return true;
    }
    if |re| >= 2 && re[1] == '*' {
      StarThen(re, text);
      m := MatchStar(re[0], re[2..], text);
      return;
    }
    if re == ['$'] {
      EndPattern(text);
      return |text| == 0;
    }
    OneThen(re, text);
    if |text| > 0 && (re[0] == '.' || re[0] == text[0]) {
      m := MatchHere(re[1..], text[1..]);
      return;
    }
    return false;
  }

  /** Shortest first: try the rest, then give the star one more fitting character. */
  method MatchStar(c: char, re: seq<char>, text: seq<char>) returns (m: bool)
    ensures m <==> exists k: nat :: k <= |text| && AllFit(c, text[..k]) && MatchesHere(re, text[k..])
    decreases |re|, 1
  {
    var k := 0;
    while true
      invariant 0 <= k <= |text| && AllFit(c, text[..k])
      invariant forall j: nat :: j < k ==> !MatchesHere(re, text[j..])
      decreases |text| - k
    {
      m := MatchHere(re, text[k..]);
      if m {
        return;
      }
      if !(k < |text| && (text[k] == c || c == '.')) {
        forall j: nat | j <= |text| && AllFit(c, text[..j]) ensures !MatchesHere(re, text[j..]) {
          assert j > k ==> Fits(c, text[..j][k]);
        }
        return false;
      }
      assert text[..k + 1] == text[..k] + [text[k]];
      k := k + 1;
    }
  }

  method Match(re: seq<char>, text: seq<char>) returns (m: bool)
    ensures m <==> Matches(re, text)
  {
    if |re| > 0 && re[0] == '^' {
      m := MatchHere(re[1..], text);
      return;
    }
    var i := 0;
    while true // must look at the empty suffix too
      invariant 0 <= i <= |text|
      invariant forall j: nat :: j < i ==> !MatchesHere(re, text[j..])
      decreases |text| - i
    {
      m := MatchHere(re, text[i..]);
      if m {
        return;
      }
      if i == |text| {
        return false;
      }
      i := i + 1;
    }
  }

  /** A pattern of plain characters is found exactly where it occurs. */
  lemma {:induction false} PlainPattern(re: seq<char>, text: seq<char>)
    requires forall i: nat :: i < |re| ==> re[i] !in ['^', '$', '*', '.']
    ensures MatchesHere(re, text) <==> re <= text
  {
    if re == [] {
      EmptyPattern(text);
    } else {
      assert re[0] != '$' && (|re| >= 2 ==> re[1] != '*');
      OneThen(re, text);
      if |text| > 0 {
        PlainPattern(re[1..], text[1..]);
        if re[0] == text[0] && re[1..] <= text[1..] {
          assert re == [re[0]] + re[1..] && text == [text[0]] + text[1..];
        }
      }
    }
  }
}

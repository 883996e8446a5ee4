/** The shell's `peek -r`: reading a file's lines backward, chunk by chunk. */
module Peek {
  import opened Basics

  type Line = seq<char>

  /** The pieces between newlines: one more than there are newlines. */
  function Split(s: seq<char>): (r: seq<Line>)
    ensures |r| > 0
  {
    if s == [] then [[]]
    else
      var rest := Split(s[1..]);
      if s[0] == '\n' then [[]] + rest else [[s[0]] + rest[0]] + rest[1..]
  }

  function Join(lines: seq<Line>): seq<char>
    requires |lines| > 0
  {
    if |lines| == 1 then lines[0] else lines[0] + ['\n'] + Join(lines[1..])
  }

  predicate OneLine(l: Line) { '\n' !in l }

  function Reverse(lines: seq<Line>): (r: seq<Line>)
    ensures |r| == |lines|
  {
    if lines == [] then [] else Reverse(lines[1..]) + [lines[0]]
  }

  lemma {:induction false} ReverseSnoc(lines: seq<Line>, l: Line)
    ensures Reverse(lines + [l]) == [l] + Reverse(lines)
  {
    if lines == [] {
      assert [] + [l] == [l];
    } else {
      ReverseSnoc(lines[1..], l);
      assert (lines + [l])[1..] == lines[1..] + [l];
    }
  }

  lemma {:induction false} ReverseTwice(lines: seq<Line>)
    ensures Reverse(Reverse(lines)) == lines
  {
    if lines != [] {
      ReverseTwice(lines[1..]);
      ReverseSnoc(Reverse(lines[1..]), lines[0]);
    }
  }

  lemma SplitNewline(s: seq<char>)
    ensures Split(['\n'] + s) == [[]] + Split(s)
  {
    assert (['\n'] + s)[1..] == s;
  }

  lemma SplitChar(c: char, s: seq<char>)
    requires c != '\n'
    ensures Split([c] + s) == [[c] + Split(s)[0]] + Split(s)[1..]
  {
    assert ([c] + s)[1..] == s;
  }

  lemma JoinCons(l: Line, rest: seq<Line>)
    requires |rest| > 0
    ensures Join([l] + rest) == l + ['\n'] + Join(rest)
  {
    assert ([l] + rest)[1..] == rest;
  }

  /** A character before the text is a character before its first line. */
  lemma JoinChar(c: char, l: Line, rest: seq<Line>)
    ensures Join([[c] + l] + rest) == [c] + Join([l] + rest)
  {
    if rest != [] {
      JoinCons([c] + l, rest);
      JoinCons(l, rest);
      assert ([c] + l) + ['\n'] + Join(rest) == [c] + (l + ['\n'] + Join(rest));
    }
  }

  predicate OneLines(lines: seq<Line>) { forall i: nat :: i < |lines| ==> OneLine(lines[i]) }

  /** Split is the way to cut a text into lines: the pieces hold no newline and join up to the text. */
  lemma {:induction false} SplitJoins(s: seq<char>)
    ensures Join(Split(s)) == s && OneLines(Split(s))
  {
    if s != [] {
      hide Split, Join;
      SplitJoins(s[1..]);
      var rest := Split(s[1..]);
      assert s == [s[0]] + s[1..];
      if s[0] == '\n' {
        SplitNewline(s[1..]);
        JoinCons([], rest);
        assert [] + ['\n'] + Join(rest) == ['\n'] + Join(rest);
      } else {
        SplitChar(s[0], s[1..]);
        JoinChar(s[0], rest[0], rest[1..]);
        assert [rest[0]] + rest[1..] == rest;
        LongerLine(s[0], rest);
      }
    } else {
      assert Split(s) == [[]];
    }
  }

  lemma LongerLine(c: char, rest: seq<Line>)
    requires c != '\n' && rest != [] && OneLines(rest)
    ensures OneLines([[c] + rest[0]] + rest[1..])
  {
    var lines := [[c] + rest[0]] + rest[1..];
    forall i: nat | i < |lines| ensures OneLine(lines[i]) {
      assert OneLine(rest[i]);
    }
  }

  /** And the only one. */
  lemma {:induction false} SplitUnique(lines: seq<Line>)
    requires |lines| > 0 && OneLines(lines)
    ensures Split(Join(lines)) == lines
    decreases |Join(lines)|, |lines|
  {
    hide Split, Join;
    var l, rest := lines[0], lines[1..];
    assert lines == [l] + rest && OneLines(rest);
    if l != [] {
      var shorter := [l[1..]] + rest;
      assert l == [l[0]] + l[1..] && OneLine(l);
      JoinChar(l[0], l[1..], rest);
      assert OneLines(shorter);
      SplitUnique(shorter);
      SplitChar(l[0], Join(shorter));
      assert shorter[0] == l[1..] && shorter[1..] == rest;
    } else if rest != [] {
      JoinCons([], rest);
      assert [] + ['\n'] + Join(rest) == ['\n'] + Join(rest);
      SplitUnique(rest);
      SplitNewline(Join(rest));
    } else {
      assert lines == [[]];
      NoLines();
    }
  }

  lemma NoLines()
    ensures Split(Join([[]])) == [[]]
  {
  }

  /** What reading backward yields: the lines last first, without the first line when it is empty. */
  function Backward(s: seq<char>): seq<Line> {
    var r := Split(s);
    if r[0] == [] then Reverse(r[1..]) else Reverse(r)
  }

  /** `text` has been cut into `first` and, behind it, `lines` in reverse. */
  ghost predicate Cut(text: seq<char>, first: Line, lines: seq<Line>) { Split(text) == [first] + Reverse(lines) }

  lemma CutAtNewline(text: seq<char>, first: Line, lines: seq<Line>)
    requires Cut(text, first, lines)
    ensures Cut(['\n'] + text, [], lines + [first])
  {
    assert (['\n'] + text)[1..] == text;
    ReverseSnoc(lines, first);
  }

  lemma CutLater(text: seq<char>, first: Line, lines: seq<Line>, c: char)
    requires Cut(text, first, lines) && c != '\n'
    ensures Cut([c] + text, [c] + first, lines)
  {
    assert ([c] + text)[1..] == text;
    assert Split(text)[0] == first && Split(text)[1..] == Reverse(lines);
  }

  lemma OneMore(word: seq<char>, i: nat, end: nat, t: seq<char>)
    requires i < end <= |word|
    ensures word[i..end] + t == [word[i]] + (word[i + 1..end] + t)
    ensures end == |word| ==> word[i..] + t == [word[i]] + (word[i + 1..] + t)
  {
  }

  /** One chunk, from its last byte to its first: lines that end in it are pushed, the rest is carried over. */
  method ReadChunk(word: seq<char>, lo0: Option<Line>, lines0: seq<Line>,
                   ghost after: seq<char>) returns (lo: Option<Line>, lines: seq<Line>)
    requires |word| > 0 && Cut(after, Left(lo0), lines0) && (lo0.Some? ==> lo0.value != [])
    ensures Cut(word + after, Left(lo), lines) && (lo.Some? ==> lo.value != [])
  {
    hide Cut;
    lo, lines := lo0, lines0;
    var end, i := |word|, |word| - 1;
    assert word[|word|..] + after == after;
    assert word[|word|..|word|] + Left(lo) == Left(lo);
    while i >= 0
      invariant -1 <= i < end <= |word|
      invariant Cut(word[i + 1..] + after, word[i + 1..end] + Left(lo), lines)
      invariant (lo.Some? ==> lo.value != []) && (end < |word| ==> lo.None?)
    {
      ghost var text := word[i + 1..] + after;
      var first := word[i + 1..end] + Left(lo);
      OneMore(word, i, |word|, after);
      if word[i] == '\n' {
        CutAtNewline(text, first, lines);
        lines := lines + [first];
        lo := None;
        end := i;
        assert word[i..end] + Left(lo) == [];
      } else {
        CutLater(text, first, lines, word[i]);
        OneMore(word, i, end, Left(lo));
      }
      i := i - 1;
    }
    assert i + 1 == 0 && word[0..] == word && word[0..end] == word[..end];
    var rest := word[..end] + Left(lo);
    assert Cut(word + after, rest, lines);
    if end > 0 {
      lo := Some(rest);
    } else {
      assert lo == None && rest == [];
    }
  }

  /** read_lines_backward with chunks of `chunk` bytes; each read returns as much as it is asked for. */
  method ReadLinesBackward(content: seq<char>, chunk: nat) returns (lines: seq<Line>)
    requires chunk >= 1
    ensures lines == Backward(content)
  {
    hide Cut;
    lines := [];
    if |content| == 0 {
      return;
    }
    var lo: Option<Line> := None;
    var pos := |content|;
    CutEnd(content[pos..]);
    while pos > 0
      invariant 0 <= pos <= |content|
      invariant Cut(content[pos..], Left(lo), lines)
      invariant lo.Some? ==> lo.value != []
    {
      var toread := if chunk < pos then chunk else pos;
      ghost var after := content[pos..];
      pos := pos - toread;
      var word := content[pos..pos + toread];
      assert word + after == content[pos..];
      lo, lines := ReadChunk(word, lo, lines, after);
    }
    assert content[0..] == content;
    CutWhole(content, Left(lo), lines);
    if lo.Some? {
      lines := lines + [lo.value];
    }
  }

  lemma CutEnd(text: seq<char>)
    requires text == []
    ensures Cut(text, [], [])
  {
  }

  lemma CutWhole(text: seq<char>, first: Line, lines: seq<Line>)
    requires Cut(text, first, lines)
    ensures Backward(text) == if first == [] then lines else lines + [first]
  {
    ReverseTwice(lines);
    assert Split(text)[1..] == Reverse(lines);
  }

  /** The bytes carried over from the chunk after. */
  function Left(lo: Option<Line>): Line { if lo.Some? then lo.value else [] }

  /** Every line comes out once, in reverse order: reading backward loses at most an empty first line. */
  lemma BackwardLosesNothing(s: seq<char>)
    ensures var back := Reverse(Backward(s));
            Split(s) == (if Split(s)[0] == [] then [[]] else []) + back
    ensures s != [] && s[0] != '\n' ==> Backward(s) != [] && Join(Reverse(Backward(s))) == s
  {
    var r := Split(s);
    if r[0] == [] {
      ReverseTwice(r[1..]);
      assert r == [[]] + r[1..];
    } else {
      ReverseTwice(r);
    }
    SplitJoins(s);
  }
}

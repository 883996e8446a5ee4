/**
  The shell's lexer, and reconstruct_cmd_str, which prints tokens back: lexing undoes printing,
  and undoes escaping.
 */
module Lexer {
  import opened Basics
  import opened ShellTokens

  predicate IsSpecial(c: char) { c == '<' || c == '>' || c == ';' || c == '|' || c == '&' }

  predicate IsSpace(c: char) { c == ' ' || c == '\t' || c == '\n' }

  /** What lexing a piece of a word gives: the characters, and where it stops. */
  datatype Lexed = Ok(word: string, next: nat) | Bad

  function Prepend(s: string, l: Lexed): Lexed { if l.Ok? then Ok(s + l.word, l.next) else Bad }

  /** Inside single quotes everything stands for itself. */
  function SingleQuoted(line: string, pos: nat): (r: Lexed)
    ensures r.Ok? ==> pos < r.next <= |line|
    decreases |line| - pos
  {
    if pos >= |line| then Bad
    else if line[pos] == '\'' then Ok("", pos + 1)
    else Prepend([line[pos]], SingleQuoted(line, pos + 1))
  }

  /** Inside double quotes a backslash escapes a double quote and itself, and is kept before anything else. */
  function Unescaped(c: char): string { if c == '"' || c == '\\' then [c] else ['\\', c] }

  function DoubleQuoted(line: string, pos: nat): (r: Lexed)
    ensures r.Ok? ==> pos < r.next <= |line|
    decreases |line| - pos
  {
    if pos >= |line| then Bad
    else if line[pos] == '"' then Ok("", pos + 1)
    else if line[pos] == '\\' then
      if pos + 1 >= |line| then Bad else Prepend(Unescaped(line[pos + 1]), DoubleQuoted(line, pos + 2))
    else Prepend([line[pos]], DoubleQuoted(line, pos + 1))
  }

  /** A word, up to a blank, an operator or the end. */
  function WordFrom(line: string, pos: nat): (r: Lexed)
    requires pos <= |line|
    ensures r.Ok? ==>
              pos <= r.next <= |line| && (pos < |line| && !IsSpace(line[pos]) && !IsSpecial(line[pos]) ==> pos < r.next)
    decreases |line| - pos
  {
    if pos == |line| || IsSpace(line[pos]) || IsSpecial(line[pos]) then Ok("", pos)
    else if line[pos] == '\\' then
      if pos + 1 >= |line| then Bad else Prepend([line[pos + 1]], WordFrom(line, pos + 2))
    else if line[pos] == '"' then
      var q := DoubleQuoted(line, pos + 1);
      if q.Bad? then Bad else Prepend(q.word, WordFrom(line, q.next))
    else if line[pos] == '\'' then
      var q := SingleQuoted(line, pos + 1);
      if q.Bad? then Bad else Prepend(q.word, WordFrom(line, q.next))
    else Prepend([line[pos]], WordFrom(line, pos + 1))
  }

  /** The tokens from `pos` on; None for a lexical error. */
  function TokensFrom(line: string, pos: nat): Option<seq<Token>>
    requires pos <= |line|
    decreases |line| - pos
  {
    if pos == |line| then Some([])
    else if IsSpace(line[pos]) then TokensFrom(line, pos + 1)
    else if IsSpecial(line[pos]) then
      var op := OperatorAt(line, pos);
      Cons(op.0, TokensFrom(line, op.1))
    else
      var w := WordFrom(line, pos);
      if w.Bad? then None else Cons(Word(w.word), TokensFrom(line, w.next))
  }

  function Cons(t: Token, rest: Option<seq<Token>>): Option<seq<Token>> {
    if rest.Some? then Some([t] + rest.value) else None
  }

  /** An operator and where it ends; `>>` is one token. */
  function OperatorAt(line: string, pos: nat): (r: (Token, nat))
    requires pos < |line| && IsSpecial(line[pos])
    ensures pos < r.1 <= |line|
  {
    if line[pos] == '|' then (Pipe, pos + 1)
    else if line[pos] == '&' then (Amp, pos + 1)
    else if line[pos] == ';' then (Semi, pos + 1)
    else if line[pos] == '<' then (Lt, pos + 1)
    else if pos + 1 < |line| && line[pos + 1] == '>' then (GtGt, pos + 2)
    else (Gt, pos + 1)
  }

  // ---------- the lexer ----------

  /** The growable buffer a word is collected in, always ended by a NUL. */
  class WordBuffer {
    var data: array<char>
    var len: nat

    ghost predicate Valid()
      reads this, data
    {
      len + 1 <= data.Length && data[len] == '\0'
    }

    ghost function Contents(): string
      requires Valid()
      reads this, data
    {
      data[..len]
    }

    constructor ()
      ensures Valid() && Contents() == "" && fresh(data)
    {
      data := new char[32](_ => '\0');
      len := 0;
    }

    /** word_push: double the space when the character and its NUL would not fit. */
    method Push(c: char)
      requires Valid()
      modifies this, data
      ensures Valid() && Contents() == old(Contents()) + [c] && (data == old(data) || fresh(data))
    {
      ghost var before := data[..len];
      if len + 2 > data.Length {
        var grown := new char[2 * data.Length](_ => '\0');
        var i := 0;
        while i < data.Length
          invariant 0 <= i <= data.Length < grown.Length && fresh(grown)
          invariant grown[..i] == data[..i] && data == old(data) && data[..] == old(data[..]) && len == old(len)
        {
          grown[i] := data[i];
          i := i + 1;
        }
        assert grown[..len] == grown[..i][..len] == before;
        data := grown;
      }
      data[len] := c;
      len := len + 1;
      data[len] := '\0';
      assert data[..len] == data[..len - 1] + [c];
      assert data[..len - 1] == before;
    }

    method PushEscaped(c: char)
      requires Valid()
      modifies this, data
      ensures Valid() && Contents() == old(Contents()) + Unescaped(c) && (data == old(data) || fresh(data))
    {
      if c != '"' && c != '\\' {
        Push('\\');
      }
      Push(c);
    }

    method Text() returns (s: string)
      requires Valid()
      ensures s == Contents()
    {
      s := data[..len];
    }
  }

  /** The inside of single quotes; None when they are not closed. */
  method LexSingle(line: string, pos0: nat, word: WordBuffer) returns (next: Option<nat>)
    requires word.Valid() && pos0 <= |line|
    modifies word, word.data
    ensures word.Valid() && (word.data == old(word.data) || fresh(word.data))
    ensures var q := SingleQuoted(line, pos0);
            if q.Bad? then next.None? else next == Some(q.next) && word.Contents() == old(word.Contents()) + q.word
  {
    var pos := pos0;
    while pos < |line|
      invariant pos0 <= pos <= |line| && word.Valid() && (word.data == old(word.data) || fresh(word.data))
      invariant Prepend(old(word.Contents()), SingleQuoted(line, pos0)) ==
                Prepend(word.Contents(), SingleQuoted(line, pos))
    {
      if line[pos] == '\'' {
        return Some(pos + 1);
      }
      ghost var before := word.Contents();
      word.Push(line[pos]);
      Regroup(before, [line[pos]], SingleQuoted(line, pos + 1));
      pos := pos + 1;
    }
    return None;
  }

  /** The inside of double quotes. */
  method LexDouble(line: string, pos0: nat, word: WordBuffer) returns (next: Option<nat>)
    requires word.Valid() && pos0 <= |line|
    modifies word, word.data
    ensures word.Valid() && (word.data == old(word.data) || fresh(word.data))
    ensures var q := DoubleQuoted(line, pos0);
            if q.Bad? then next.None? else next == Some(q.next) && word.Contents() == old(word.Contents()) + q.word
  {
    var pos := pos0;
    while pos < |line|
      invariant pos0 <= pos <= |line| && word.Valid() && (word.data == old(word.data) || fresh(word.data))
      invariant Prepend(old(word.Contents()), DoubleQuoted(line, pos0)) ==
                Prepend(word.Contents(), DoubleQuoted(line, pos))
    {
      var c := line[pos];
      ghost var before := word.Contents();
      if c == '"' {
        return Some(pos + 1);
      }
      if c == '\\' {
        if pos + 1 >= |line| {
          return None;
        }
        word.PushEscaped(line[pos + 1]);
        Regroup(before, Unescaped(line[pos + 1]), DoubleQuoted(line, pos + 2));
        pos := pos + 2;
      } else {
        word.Push(c);
        Regroup(before, [c], DoubleQuoted(line, pos + 1));
        pos := pos + 1;
      }
    }
    return None;
  }

  lemma Regroup(a: string, b: string, l: Lexed)
    ensures Prepend(a, Prepend(b, l)) == Prepend(a + b, l)
  {
    if l.Ok? {
      assert a + (b + l.word) == (a + b) + l.word;
    }
  }

  /** lex_word. */
  method LexWord(line: string, pos0: nat) returns (r: Lexed)
    requires pos0 <= |line|
    ensures r == WordFrom(line, pos0)
  {
    hide SingleQuoted, DoubleQuoted;
    var word := new WordBuffer();
    var pos := pos0;
    assert Prepend("", WordFrom(line, pos)) == WordFrom(line, pos);
    while pos < |line|
      invariant pos0 <= pos <= |line| && word.Valid() && fresh(word) && fresh(word.data)
      invariant WordFrom(line, pos0) == Prepend(word.Contents(), WordFrom(line, pos))
    {
      var c := line[pos];
      ghost var before := word.Contents();
      if IsSpace(c) || IsSpecial(c) {
        break;
      }
      if c == '\\' {
        if pos + 1 >= |line| {
          return Bad;
        }
        word.Push(line[pos + 1]);
        Regroup(before, [line[pos + 1]], WordFrom(line, pos + 2));
        pos := pos + 2;
        continue;
      }
      if c == '"' || c == '\'' {
        var next;
        if c == '"' {
          next := LexDouble(line, pos + 1, word);
        } else {
          next := LexSingle(line, pos + 1, word);
        }
        if next.None? {
          return Bad;
        }
        Regroup(before, if c == '"' then DoubleQuoted(line, pos + 1).word else SingleQuoted(line, pos + 1).word,
                WordFrom(line, next.value));
        pos := next.value;
        continue;
      }
      word.Push(c);
      Regroup(before, [c], WordFrom(line, pos + 1));
      pos := pos + 1;
    }
    var text := word.Text();
    assert text + "" == text;
    return Ok(text, pos);
  }

  /** lex_line; None for a lexical error. */
  method LexLine(line: string) returns (r: Option<seq<Token>>)
    ensures r == TokensFrom(line, 0)
  {
    var tokens: seq<Token> := [];
    var pos := 0;
    FollowEnds(tokens, TokensFrom(line, 0));
    while pos < |line|
      invariant 0 <= pos <= |line|
      invariant TokensFrom(line, 0) == Follow(tokens, TokensFrom(line, pos))
    {
      var c := line[pos];
      if IsSpace(c) {
        pos := pos + 1;
        continue;
      }
      if IsSpecial(c) {
        var op := OperatorAt(line, pos);
        FollowMore(tokens, op.0, TokensFrom(line, op.1));
        tokens := tokens + [op.0];
        pos := op.1;
        continue;
      }
      var w := LexWord(line, pos);
      if w.Bad? {
        return None;
      }
      FollowMore(tokens, Word(w.word), TokensFrom(line, w.next));
      tokens := tokens + [Word(w.word)];
      pos := w.next;
    }
    FollowEnds(tokens, Some([]));
    return Some(tokens);
  }

  function Follow(tokens: seq<Token>, rest: Option<seq<Token>>): Option<seq<Token>> {
    if rest.Some? then Some(tokens + rest.value) else None
  }

  lemma FollowEnds(tokens: seq<Token>, rest: Option<seq<Token>>)
    ensures Follow([], rest) == rest && Follow(tokens, Some([])) == Some(tokens)
  {
    assert tokens + [] == tokens;
    assert rest.Some? ==> [] + rest.value == rest.value;
  }

  lemma FollowMore(tokens: seq<Token>, t: Token, rest: Option<seq<Token>>)
    ensures Follow(tokens, Cons(t, rest)) == Follow(tokens + [t], rest)
  {
    if rest.Some? {
      assert tokens + ([t] + rest.value) == (tokens + [t]) + rest.value;
    }
  }

  // ---------- printing tokens ----------

  /** The text of a token; separators have none. */
  function TextOf(t: Token): string {
    match t
    case Word(text) => text
    case Pipe => "|"
    case Lt => "<"
    case Gt => ">"
    case GtGt => ">>"
    case Semi => ""
    case Amp => ""
  }

  /** One token added to a command string of at most `n` characters with its NUL; what does not fit is left out. */
  function AddText(acc: string, text: string, n: nat): string {
    if text == "" then acc
    else
      var a := if |acc| > 0 && |acc| + 1 < n then acc + " " else acc;
      if |a| + |text| < n then a + text else a
  }

  function Rebuild(list: seq<Token>, acc: string, n: nat): string
    decreases |list|
  {
    if list == [] then acc else Rebuild(list[1..], AddText(acc, TextOf(list[0]), n), n)
  }

  /** reconstruct_cmd_str, into a buffer of its own. */
  method ReconstructCmdStr(list: seq<Token>, out: array<char>) returns (cur: nat)
    requires out.Length > 0
    modifies out
    ensures cur < out.Length && out[cur] == '\0' && out[..cur] == Rebuild(list, "", out.Length)
  {
    hide AddText;
    cur := 0;
    out[0] := '\0';
    var i := 0;
    assert list[0..] == list && out[..cur] == "";
    while i < |list|
      invariant 0 <= i <= |list| && cur < out.Length && out[cur] == '\0'
      invariant Rebuild(list, "", out.Length) == Rebuild(list[i..], out[..cur], out.Length)
    {
      assert list[i..][0] == list[i] && list[i..][1..] == list[i + 1..];
      cur := AddToken(out, cur, TextOf(list[i]));
      i := i + 1;
    }
  }

  /** One round of its loop. */
  method AddToken(out: array<char>, cur: nat, text: string) returns (end: nat)
    requires cur < out.Length && out[cur] == '\0'
    modifies out
    ensures end < out.Length && out[end] == '\0' && out[..end] == AddText(old(out[..cur]), text, out.Length)
  {
    end := cur;
    if |text| > 0 {
      if cur > 0 && cur + 1 < out.Length {
        out[cur] := ' ';
        end := cur + 1;
        out[end] := '\0';
        assert out[..end] == old(out[..cur]) + " ";
      }
      if end + |text| < out.Length {
        end := CopyText(out, end, text);
      }
    }
  }

  /** strcpy, with its NUL. */
  method CopyText(out: array<char>, cur: nat, text: string) returns (end: nat)
    requires cur + |text| < out.Length
    modifies out
    ensures end == cur + |text| && out[..end] == old(out[..cur]) + text && out[end] == '\0'
  {
    ghost var before := out[..cur];
    var k := 0;
    while k < |text|
      invariant 0 <= k <= |text| && out[..cur + k] == before + text[..k]
    {
      out[cur + k] := text[k];
      k := k + 1;
      assert out[..cur + k] == out[..cur + k - 1] + [text[k - 1]];
    }
    assert text[..k] == text;
    end := cur + |text|;
    out[end] := '\0';
  }

  // ---------- lexing undoes printing ----------

  predicate PlainChar(c: char) { !IsSpace(c) && !IsSpecial(c) && c != '"' && c != '\'' && c != '\\' }

  predicate PlainWord(s: string) { s != "" && forall i: nat :: i < |s| ==> PlainChar(s[i]) }

  /** Every character behind a backslash. */
  function Escaped(w: string): string { if w == "" then "" else ['\\', w[0]] + Escaped(w[1..]) }

  function OpText(t: Token): string { if t.Semi? then ";" else if t.Amp? then "&" else TextOf(t) }

  /** `s` is a way to write the token: a plain word as it is, any word escaped, an operator by its sign. */
  predicate Spells(s: string, t: Token) {
    if t.Word? then (PlainWord(s) && t.text == s) || (t.text != "" && s == Escaped(t.text)) else s == OpText(t)
  }

  predicate Ends(line: string, pos: nat) { pos == |line| || (pos < |line| && line[pos] == ' ') }

  lemma {:induction false} PlainLexes(line: string, pos: nat, end: nat)
    requires pos <= end <= |line| && Ends(line, end) && forall i: nat :: pos <= i < end ==> PlainChar(line[i])
    ensures WordFrom(line, pos) == Ok(line[pos..end], end)
    decreases end - pos
  {
    if pos < end {
      PlainLexes(line, pos + 1, end);
      assert line[pos..end] == [line[pos]] + line[pos + 1..end];
    }
  }

  lemma {:induction false} EscapedLexes(line: string, pos: nat, w: string)
    requires pos + |Escaped(w)| <= |line| && line[pos..pos + |Escaped(w)|] == Escaped(w)
    requires Ends(line, pos + |Escaped(w)|)
    ensures WordFrom(line, pos) == Ok(w, pos + |Escaped(w)|)
    decreases |w|
  {
    if w != "" {
      var s := line[pos..pos + |Escaped(w)|];
      assert s[0] == '\\' && s[1] == w[0] && s[2..] == Escaped(w[1..]);
      assert line[pos] == '\\' && line[pos + 1] == w[0];
      assert line[pos + 2..pos + 2 + |Escaped(w[1..])|] == s[2..];
      EscapedLexes(line, pos + 2, w[1..]);
      assert w == [w[0]] + w[1..];
    }
  }

  /** A token's spelling lexes to the token. */
  lemma TokenLexes(line: string, pos: nat, s: string, t: Token)
    requires Spells(s, t) && pos + |s| <= |line| && line[pos..pos + |s|] == s && Ends(line, pos + |s|)
    ensures |s| > 0 && TokensFrom(line, pos) == Cons(t, TokensFrom(line, pos + |s|))
  {
    if t.Word? {
      if PlainWord(s) && t.text == s {
        forall i: nat | pos <= i < pos + |s| ensures PlainChar(line[i]) {
          assert line[i] == s[i - pos];
        }
        PlainLexes(line, pos, pos + |s|);
      } else {
        EscapedLexes(line, pos, t.text);
        assert line[pos] == s[0] == '\\';
      }
    } else {
      assert line[pos] == s[0];
      if t.GtGt? { assert line[pos + 1] == s[1]; }
    }
  }

  /** Spellings with a blank between them. */
  function Spaced(parts: seq<string>): string {
    if parts == [] then "" else if |parts| == 1 then parts[0] else parts[0] + " " + Spaced(parts[1..])
  }

  /** A list of tokens, each written in some way and set apart by blanks, lexes to itself. */
  lemma {:induction false} ListLexes(line: string, pos: nat, parts: seq<string>, list: seq<Token>)
    requires pos <= |line| && line[pos..] == Spaced(parts) && |parts| == |list|
    requires forall i: nat :: i < |parts| ==> Spells(parts[i], list[i])
    ensures TokensFrom(line, pos) == Some(list)
    decreases |list|
  {
    hide Spells, WordFrom, OperatorAt;
    if |parts| > 0 {
      var s, end := parts[0], pos + |parts[0]|;
      FirstPart(line, pos, parts);
      assert Spells(parts[0], list[0]);
      TokenLexes(line, pos, s, list[0]);
      if |parts| == 1 {
        assert TokensFrom(line, end) == Some([]);
        assert [list[0]] + [] == list;
      } else {
        forall i: nat | i < |parts[1..]| ensures Spells(parts[1..][i], list[1..][i]) {
          assert Spells(parts[i + 1], list[i + 1]);
        }
        ListLexes(line, end + 1, parts[1..], list[1..]);
        assert TokensFrom(line, end) == TokensFrom(line, end + 1);
        assert list == [list[0]] + list[1..];
      }
    }
  }

  lemma FirstPart(line: string, pos: nat, parts: seq<string>)
    requires pos <= |line| && line[pos..] == Spaced(parts) && |parts| > 0
    ensures var s := parts[0];
            && pos + |s| <= |line| && line[pos..pos + |s|] == s && Ends(line, pos + |s|)
            && (|parts| == 1 ==> pos + |s| == |line|)
            && (|parts| > 1 ==>
                  && pos + |s| + 1 <= |line| && line[pos + |s|] == ' '
                  && line[pos + |s| + 1..] == Spaced(parts[1..]))
  {
    var s, t := parts[0], line[pos..];
    assert t[..|s|] == s;
    assert line[pos..pos + |s|] == t[..|s|];
    if |parts| > 1 {
      assert t[|s|] == ' ' && t[|s| + 1..] == Spaced(parts[1..]);
      assert line[pos + |s| + 1..] == t[|s| + 1..];
    }
  }

  function Texts(list: seq<Token>): seq<string> { seq(|list|, i requires 0 <= i < |list| => TextOf(list[i])) }

  /** No separators, and only plain words. */
  predicate Printable(list: seq<Token>) {
    forall i: nat :: i < |list| ==> !IsSeparator(list[i]) && (list[i].Word? ==> PlainWord(list[i].text))
  }

  function Render(list: seq<Token>): string { Spaced(Texts(list)) }

  /** While it fits, the command string is the rendering. */
  lemma {:induction false} RebuildFits(list: seq<Token>, acc: string, n: nat)
    requires Printable(list)
    requires (if acc == "" then |Render(list)| < n else list != [] ==> |acc| + 1 + |Render(list)| < n)
    ensures Rebuild(list, acc, n) == if acc == "" || list == [] then acc + Render(list) else acc + " " + Render(list)
    decreases |list|
  {
    hide Render, AddText, PlainWord;
    if list == [] {
      RenderNone();
    } else {
      var t, rest := TextOf(list[0]), list[1..];
      RenderCons(list);
      assert Printable(rest);
      AddFits(acc, t, n);
      RebuildFits(rest, AddText(acc, t, n), n);
      if rest == [] { RenderNone(); }
      Retexted(acc, t, Render(rest));
    }
  }

  lemma RenderNone()
    ensures Render([]) == ""
  {
    assert Texts([]) == [];
  }

  lemma RenderCons(list: seq<Token>)
    requires Printable(list) && list != []
    ensures TextOf(list[0]) != ""
    ensures Render(list) == if |list| == 1 then TextOf(list[0]) else TextOf(list[0]) + " " + Render(list[1..])
  {
    assert Texts(list)[0] == TextOf(list[0]) && Texts(list)[1..] == Texts(list[1..]);
  }

  lemma AddFits(acc: string, t: string, n: nat)
    requires t != "" && (if acc == "" then |t| < n else |acc| + 1 + |t| < n)
    ensures AddText(acc, t, n) == if acc == "" then t else acc + " " + t
  {
    assert "" + t == t;
  }

  lemma Retexted(acc: string, t: string, r: string)
    ensures acc + " " + t + " " + r == acc + " " + (t + " " + r) && "" + t == t && "" + (t + " " + r) == t + " " + r
    ensures acc + " " + t + "" == acc + " " + t && t + "" == t
  {
  }

  /** lex_line of reconstruct_cmd_str gives the tokens back. */
  lemma LexUndoesPrinting(list: seq<Token>, n: nat)
    requires Printable(list) && |Render(list)| < n
    ensures TokensFrom(Rebuild(list, "", n), 0) == Some(list)
  {
    RebuildFits(list, "", n);
    var line := Render(list);
    assert Rebuild(list, "", n) == line;
    assert line[0..] == line;
    forall i: nat | i < |list| ensures Spells(Texts(list)[i], list[i]) {
    }
    ListLexes(line, 0, Texts(list), list);
  }

  /** Any word, escaped character by character, lexes back to itself. */
  lemma LexUndoesEscaping(w: string)
    requires w != ""
    ensures TokensFrom(Escaped(w), 0) == Some([Word(w)])
  {
    assert Escaped(w)[0..] == Escaped(w) == Spaced([Escaped(w)]);
    ListLexes(Escaped(w), 0, [Escaped(w)], [Word(w)]);
  }
}

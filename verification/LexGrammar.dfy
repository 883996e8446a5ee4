/**
  The language of the shell's lexer, told without the lexer: a line is a row of blanks, signs and
  words, and a word a row of plain characters, escaped characters and quoted stretches. The lexer
  accepts exactly these lines and reads each as what it says.
 */
module LexGrammar {
  import opened Basics
  import opened ShellTokens
  import opened Lexer

  /** Inside double quotes: a character that stands for itself, or one behind a backslash. */
  datatype Quoted = Itself(c: char) | Protected(c: char)

  datatype Piece = Bare(c: char) | Escape(c: char) | Single(text: string) | Double(body: seq<Quoted>)

  datatype Item = Gap(c: char) | Sign(t: Token) | Spelled(pieces: seq<Piece>)

  // ---------- how it is written ----------

  function QuotedText(q: Quoted): string { if q.Itself? then [q.c] else ['\\', q.c] }

  function DoubleText(body: seq<Quoted>): string {
    if body == [] then "" else QuotedText(body[0]) + DoubleText(body[1..])
  }

  function PieceText(x: Piece): string {
    match x
    case Bare(c) => [c]
    case Escape(c) => ['\\', c]
    case Single(body) => ['\''] + body + ['\'']
    case Double(body) => ['"'] + DoubleText(body) + ['"']
  }

  function WordText(pieces: seq<Piece>): string {
    if pieces == [] then "" else PieceText(pieces[0]) + WordText(pieces[1..])
  }

  function SignText(t: Token): string {
    match t
    case Word(_) => ""
    case Pipe => "|"
    case Amp => "&"
    case Semi => ";"
    case Lt => "<"
    case Gt => ">"
    case GtGt => ">>"
  }

  function ItemText(x: Item): string {
    match x
    case Gap(c) => [c]
    case Sign(t) => SignText(t)
    case Spelled(pieces) => WordText(pieces)
  }

  function LineText(items: seq<Item>): string {
    if items == [] then "" else ItemText(items[0]) + LineText(items[1..])
  }

  // ---------- what it means ----------

  /** A backslash inside double quotes goes away before a double quote and a backslash, and stays otherwise. */
  function QuotedMeans(q: Quoted): string { if q.Itself? || q.c == '"' || q.c == '\\' then [q.c] else ['\\', q.c] }

  function DoubleMeans(body: seq<Quoted>): string {
    if body == [] then "" else QuotedMeans(body[0]) + DoubleMeans(body[1..])
  }

  function PieceMeans(x: Piece): string {
    match x
    case Bare(c) => [c]
    case Escape(c) => [c]
    case Single(body) => body
    case Double(body) => DoubleMeans(body)
  }

  function WordMeans(pieces: seq<Piece>): string {
    if pieces == [] then "" else PieceMeans(pieces[0]) + WordMeans(pieces[1..])
  }

  function ItemMeans(x: Item): seq<Token> {
    match x
    case Gap(_) => []
    case Sign(t) => [t]
    case Spelled(pieces) => [Word(WordMeans(pieces))]
  }

  function LineMeans(items: seq<Item>): seq<Token> {
    if items == [] then [] else ItemMeans(items[0]) + LineMeans(items[1..])
  }

  // ---------- what may be written ----------

  predicate BodyOk(body: seq<Quoted>) {
    forall i: nat :: i < |body| && body[i].Itself? ==> body[i].c != '"' && body[i].c != '\\'
  }

  predicate PieceOk(x: Piece) {
    match x
    case Bare(c) => PlainChar(c)
    case Escape(_) => true
    case Single(body) => '\'' !in body
    case Double(body) => BodyOk(body)
  }

  predicate PiecesOk(pieces: seq<Piece>) { forall i: nat :: i < |pieces| ==> PieceOk(pieces[i]) }

  predicate ItemOk(x: Item) {
    match x
    case Gap(c) => IsSpace(c)
    case Sign(t) => !t.Word?
    case Spelled(pieces) => pieces != [] && PiecesOk(pieces)
  }

  /** Two items that do not run into each other: not two words, and no `>` before another. */
  predicate Apart(x: Item, y: Item) {
    && !(x.Spelled? && y.Spelled?)
    && !(x == Sign(Gt) && (y == Sign(Gt) || y == Sign(GtGt)))
  }

  predicate LineOk(items: seq<Item>) {
    && (forall i: nat :: i < |items| ==> ItemOk(items[i]))
    && (forall i: nat :: i + 1 < |items| ==> Apart(items[i], items[i + 1]))
  }

  /** Where a word stops. */
  predicate Stop(line: string, pos: nat) {
    pos == |line| || (pos < |line| && (IsSpace(line[pos]) || IsSpecial(line[pos])))
  }

  /** `text` stands at `pos`. */
  predicate Stands(line: string, pos: nat, text: string) { pos + |text| <= |line| && line[pos..pos + |text|] == text }

  lemma StandsSplit(line: string, pos: nat, a: string, b: string)
    requires Stands(line, pos, a + b)
    ensures Stands(line, pos, a) && Stands(line, pos + |a|, b)
  {
    assert line[pos..pos + |a|] == (a + b)[..|a|] == a;
    assert line[pos + |a|..pos + |a + b|] == (a + b)[|a|..] == b;
  }

  lemma StandsJoin(line: string, pos: nat, a: string, b: string)
    requires Stands(line, pos, a) && Stands(line, pos + |a|, b)
    ensures Stands(line, pos, a + b)
  {
    assert line[pos..pos + |a + b|] == line[pos..pos + |a|] + line[pos + |a|..pos + |a| + |b|];
  }

  lemma StandsAt(line: string, pos: nat, text: string, i: nat)
    requires Stands(line, pos, text) && i < |text|
    ensures line[pos + i] == text[i]
  {
    assert line[pos..pos + |text|][i] == text[i];
  }

  // ---------- what is written so is read so ----------

  lemma {:induction false} SingleReads(line: string, pos: nat, body: string)
    requires Stands(line, pos, body + ['\'']) && '\'' !in body
    ensures SingleQuoted(line, pos) == Ok(body, pos + |body| + 1)
    decreases |body|
  {
    StandsAt(line, pos, body + ['\''], 0);
    if body != [] {
      assert body + ['\''] == [body[0]] + (body[1..] + ['\'']);
      StandsSplit(line, pos, [body[0]], body[1..] + ['\'']);
      SingleReads(line, pos + 1, body[1..]);
      assert [body[0]] + body[1..] == body;
    }
  }

  lemma {:induction false} DoubleReads(line: string, pos: nat, body: seq<Quoted>)
    requires Stands(line, pos, DoubleText(body) + ['"']) && BodyOk(body)
    ensures DoubleQuoted(line, pos) == Ok(DoubleMeans(body), pos + |DoubleText(body)| + 1)
    decreases |body|
  {
    if body == [] {
      StandsAt(line, pos, DoubleText(body) + ['"'], 0);
    } else {
      var q, rest := QuotedText(body[0]), DoubleText(body[1..]) + ['"'];
      assert DoubleText(body) + ['"'] == q + rest;
      StandsSplit(line, pos, q, rest);
      StandsAt(line, pos, q, 0);
      if body[0].Protected? { StandsAt(line, pos, q, 1); }
      DoubleReads(line, pos + |q|, body[1..]);
    }
  }

  lemma WordCons(x: Piece, rest: seq<Piece>)
    ensures WordText([x] + rest) == PieceText(x) + WordText(rest)
    ensures WordMeans([x] + rest) == PieceMeans(x) + WordMeans(rest)
  {
    assert ([x] + rest)[1..] == rest;
  }

  lemma {:induction false} WordReads(line: string, pos: nat, pieces: seq<Piece>)
    requires Stands(line, pos, WordText(pieces)) && PiecesOk(pieces) && Stop(line, pos + |WordText(pieces)|)
    ensures WordFrom(line, pos) == Ok(WordMeans(pieces), pos + |WordText(pieces)|)
    decreases |pieces|
  {
    hide WordFrom, WordText, WordMeans, PieceText, PieceMeans, PieceOk, Stands, Stop;
    if pieces == [] {
      WordNone();
      WordStops(line, pos);
    } else {
      var x, rest := pieces[0], pieces[1..];
      assert [x] + rest == pieces;
      WordCons(x, rest);
      StandsSplit(line, pos, PieceText(x), WordText(rest));
      WordReads(line, pos + |PieceText(x)|, rest);
      InLine(line, pos, PieceText(x));
      PieceReads(line, pos, x);
    }
  }

  lemma WordNone()
    ensures WordText([]) == "" && WordMeans([]) == ""
  {
  }

  lemma WordStops(line: string, pos: nat)
    requires Stop(line, pos)
    ensures WordFrom(line, pos) == Ok("", pos)
  {
  }

  lemma InLine(line: string, pos: nat, text: string)
    requires Stands(line, pos, text)
    ensures pos + |text| <= |line|
  {
  }

  /** One piece, and then the rest of the word. */
  lemma PieceReads(line: string, pos: nat, x: Piece)
    requires Stands(line, pos, PieceText(x)) && PieceOk(x)
    ensures pos + |PieceText(x)| <= |line|
    ensures WordFrom(line, pos) == Prepend(PieceMeans(x), WordFrom(line, pos + |PieceText(x)|))
  {
    match x {
      case Bare(c) => BareReads(line, pos, c);
      case Escape(c) => EscapeReads(line, pos, c);
      case Single(text) => QuoteReads(line, pos, text);
      case Double(body) => DoubleQuoteReads(line, pos, body);
    }
  }

  lemma BareReads(line: string, pos: nat, c: char)
    requires Stands(line, pos, [c]) && PlainChar(c)
    ensures WordFrom(line, pos) == Prepend([c], WordFrom(line, pos + 1))
  {
    StandsAt(line, pos, [c], 0);
  }

  lemma EscapeReads(line: string, pos: nat, c: char)
    requires Stands(line, pos, ['\\', c])
    ensures WordFrom(line, pos) == Prepend([c], WordFrom(line, pos + 2))
  {
    StandsAt(line, pos, ['\\', c], 0);
    StandsAt(line, pos, ['\\', c], 1);
  }

  lemma QuoteReads(line: string, pos: nat, text: string)
    requires Stands(line, pos, ['\''] + text + ['\'']) && '\'' !in text
    ensures WordFrom(line, pos) == Prepend(text, WordFrom(line, pos + |text| + 2))
  {
    hide SingleQuoted;
    assert ['\''] + text + ['\''] == ['\''] + (text + ['\'']);
    StandsSplit(line, pos, ['\''], text + ['\'']);
    StandsAt(line, pos, ['\''], 0);
    SingleReads(line, pos + 1, text);
  }

  lemma DoubleQuoteReads(line: string, pos: nat, body: seq<Quoted>)
    requires Stands(line, pos, ['"'] + DoubleText(body) + ['"']) && BodyOk(body)
    ensures WordFrom(line, pos) == Prepend(DoubleMeans(body), WordFrom(line, pos + |DoubleText(body)| + 2))
  {
    hide DoubleQuoted, DoubleText, DoubleMeans, BodyOk;
    assert ['"'] + DoubleText(body) + ['"'] == ['"'] + (DoubleText(body) + ['"']);
    StandsSplit(line, pos, ['"'], DoubleText(body) + ['"']);
    StandsAt(line, pos, ['"'], 0);
    DoubleReads(line, pos + 1, body);
  }

  /** What an item starts with tells what kind of item it is. */
  lemma FirstOf(x: Item)
    requires ItemOk(x)
    ensures var s := ItemText(x);
            && s != "" && (x.Gap? <==> IsSpace(s[0])) && (x.Sign? <==> IsSpecial(s[0]))
            && (s[0] == '>' <==> x == Sign(Gt) || x == Sign(GtGt))
  {
    hide WordText, PiecesOk;
    if x.Spelled? { WordFirst(x.pieces); }
  }

  lemma LineCons(x: Item, rest: seq<Item>)
    ensures LineText([x] + rest) == ItemText(x) + LineText(rest)
    ensures LineMeans([x] + rest) == ItemMeans(x) + LineMeans(rest)
  {
    assert ([x] + rest)[1..] == rest;
  }

  lemma LineNone(line: string)
    ensures LineText([]) == "" && LineMeans([]) == [] && TokensFrom(line, |line|) == Some([])
  {
  }

  lemma {:induction false} ItemsRead(line: string, pos: nat, items: seq<Item>)
    requires pos <= |line| && line[pos..] == LineText(items) && LineOk(items)
    ensures TokensFrom(line, pos) == Some(LineMeans(items))
    decreases |items|
  {
    hide TokensFrom, LineText, LineMeans, ItemText, ItemMeans, ItemOk, LineOk, Apart, Stop;
    LineNone(line);
    if items != [] {
      var x, rest := items[0], items[1..];
      assert [x] + rest == items;
      LineCons(x, rest);
      var next := pos + |ItemText(x)|;
      assert line[pos..][..|ItemText(x)|] == ItemText(x) && line[pos..][|ItemText(x)|..] == LineText(rest);
      assert line[pos..next] == ItemText(x) && line[next..] == LineText(rest);
      RestOk(items);
      ItemsRead(line, next, rest);
      NextFirst(line, next, rest);
      ItemReads(line, pos, x, rest);
    }
  }

  /** One item, and then the rest of the line. */
  lemma ItemReads(line: string, pos: nat, x: Item, rest: seq<Item>)
    requires ItemOk(x) && Stands(line, pos, ItemText(x)) && (rest != [] ==> Apart(x, rest[0]))
    requires var next := pos + |ItemText(x)|;
             && (rest == [] <==> next == |line|) && (rest != [] ==> (Stop(line, next) <==> !rest[0].Spelled?))
             && (rest != [] ==> (line[next] == '>' <==> rest[0] == Sign(Gt) || rest[0] == Sign(GtGt)))
    ensures pos + |ItemText(x)| <= |line|
    ensures TokensFrom(line, pos) == Before(ItemMeans(x), TokensFrom(line, pos + |ItemText(x)|))
  {
    hide WordFrom, WordText, WordMeans, PiecesOk;
    InLine(line, pos, ItemText(x));
    match x {
      case Gap(c) => GapReads(line, pos, c);
      case Sign(t) => SignReads(line, pos, t, pos + |SignText(t)| < |line| && line[pos + |SignText(t)|] == '>');
      case Spelled(pieces) => SpelledReads(line, pos, pieces);
    }
  }

  function Before(toks: seq<Token>, rest: Option<seq<Token>>): Option<seq<Token>> {
    if rest.Some? then Some(toks + rest.value) else None
  }

  lemma GapReads(line: string, pos: nat, c: char)
    requires Stands(line, pos, [c]) && IsSpace(c)
    ensures TokensFrom(line, pos) == Before([], TokensFrom(line, pos + 1))
  {
    StandsAt(line, pos, [c], 0);
    var rest := TokensFrom(line, pos + 1);
    if rest.Some? { assert [] + rest.value == rest.value; }
  }

  lemma SpelledReads(line: string, pos: nat, pieces: seq<Piece>)
    requires pieces != [] && PiecesOk(pieces) && Stands(line, pos, WordText(pieces))
    requires Stop(line, pos + |WordText(pieces)|)
    ensures TokensFrom(line, pos) == Before([Word(WordMeans(pieces))], TokensFrom(line, pos + |WordText(pieces)|))
  {
    hide WordFrom, WordText, WordMeans, PiecesOk;
    WordReads(line, pos, pieces);
    WordFirst(pieces);
    StandsAt(line, pos, WordText(pieces), 0);
  }

  lemma WordFirst(pieces: seq<Piece>)
    requires pieces != [] && PiecesOk(pieces)
    ensures WordText(pieces) != "" && !IsSpace(WordText(pieces)[0]) && !IsSpecial(WordText(pieces)[0])
  {
  }

  lemma RestOk(items: seq<Item>)
    requires LineOk(items) && items != []
    ensures ItemOk(items[0]) && LineOk(items[1..]) && (|items| > 1 ==> Apart(items[0], items[1..][0]))
  {
    forall i: nat | i + 1 < |items[1..]| ensures Apart(items[1..][i], items[1..][i + 1]) {
      assert Apart(items[i + 1], items[i + 2]);
    }
    if |items| > 1 { assert Apart(items[0], items[0 + 1]); }
  }

  /** The character behind an item, in terms of the next one. */
  lemma NextFirst(line: string, next: nat, rest: seq<Item>)
    requires next <= |line| && line[next..] == LineText(rest) && LineOk(rest)
    ensures rest == [] <==> next == |line|
    ensures rest != [] ==> (Stop(line, next) <==> !rest[0].Spelled?)
    ensures rest != [] ==> (line[next] == '>' <==> rest[0] == Sign(Gt) || rest[0] == Sign(GtGt))
  {
    if rest != [] {
      hide LineText, ItemText, ItemOk;
      var more := rest[1..];
      assert [rest[0]] + more == rest;
      LineCons(rest[0], more);
      FirstOf(rest[0]);
      assert line[next] == line[next..][0] == ItemText(rest[0])[0];
    }
  }

  lemma SignReads(line: string, pos: nat, t: Token, more: bool)
    requires !t.Word? && Stands(line, pos, SignText(t)) && (t == Gt ==> !more)
    requires more <==> pos + |SignText(t)| < |line| && line[pos + |SignText(t)|] == '>'
    ensures pos < |line| && IsSpecial(line[pos]) && OperatorAt(line, pos) == (t, pos + |SignText(t)|)
    ensures TokensFrom(line, pos) == Before([t], TokensFrom(line, pos + |SignText(t)|))
  {
    StandsAt(line, pos, SignText(t), 0);
    if t == GtGt { StandsAt(line, pos, SignText(t), 1); }
  }

  // ---------- and nothing else is read ----------

  lemma {:induction false} SingleSpelled(line: string, pos: nat)
    requires SingleQuoted(line, pos).Ok?
    ensures var r := SingleQuoted(line, pos);
            '\'' !in r.word && Stands(line, pos, r.word + ['\'']) && r.next == pos + |r.word| + 1
    decreases |line| - pos
  {
    var r := SingleQuoted(line, pos);
    if line[pos] == '\'' {
      assert r.word + ['\''] == ['\''];
    } else {
      SingleSpelled(line, pos + 1);
      var w := SingleQuoted(line, pos + 1).word;
      StandsJoin(line, pos, [line[pos]], w + ['\'']);
      assert r.word + ['\''] == [line[pos]] + (w + ['\'']);
    }
  }

  lemma {:induction false} DoubleSpelled(line: string, pos: nat) returns (body: seq<Quoted>)
    requires DoubleQuoted(line, pos).Ok?
    ensures var r := DoubleQuoted(line, pos);
            && BodyOk(body) && DoubleMeans(body) == r.word && Stands(line, pos, DoubleText(body) + ['"'])
            && r.next == pos + |DoubleText(body)| + 1
    decreases |line| - pos
  {
    hide DoubleText, DoubleMeans;
    DoubleNone();
    if line[pos] == '"' {
      body := [];
      assert DoubleText([]) + ['"'] == ['"'];
    } else {
      var q := if line[pos] == '\\' then Protected(line[pos + 1]) else Itself(line[pos]);
      var rest := DoubleSpelled(line, pos + |QuotedText(q)|);
      body := [q] + rest;
      DoubleCons(q, rest);
      StandsJoin(line, pos, QuotedText(q), DoubleText(rest) + ['"']);
      assert DoubleText(body) + ['"'] == QuotedText(q) + (DoubleText(rest) + ['"']);
    }
  }

  lemma DoubleNone()
    ensures DoubleText([]) == "" && DoubleMeans([]) == ""
  {
  }

  lemma DoubleCons(q: Quoted, rest: seq<Quoted>)
    ensures DoubleText([q] + rest) == QuotedText(q) + DoubleText(rest)
    ensures DoubleMeans([q] + rest) == QuotedMeans(q) + DoubleMeans(rest)
  {
    assert ([q] + rest)[1..] == rest;
  }

  /** The first piece of a word that is well formed. */
  lemma PieceSpelled(line: string, pos: nat) returns (x: Piece)
    requires pos <= |line| && !Stop(line, pos) && WordFrom(line, pos).Ok?
    ensures PieceOk(x) && Stands(line, pos, PieceText(x)) && PieceText(x) != ""
  {
    hide DoubleText, DoubleQuoted, SingleQuoted;
    if line[pos] == '\\' {
      x := Escape(line[pos + 1]);
    } else if line[pos] == '"' {
      var body := DoubleSpelled(line, pos + 1);
      x := Double(body);
      StandsJoin(line, pos, ['"'], DoubleText(body) + ['"']);
      assert PieceText(x) == ['"'] + (DoubleText(body) + ['"']);
    } else if line[pos] == '\'' {
      SingleSpelled(line, pos + 1);
      var body := SingleQuoted(line, pos + 1).word;
      x := Single(body);
      StandsJoin(line, pos, ['\''], body + ['\'']);
      assert PieceText(x) == ['\''] + (body + ['\'']);
    } else {
      x := Bare(line[pos]);
    }
  }

  lemma {:induction false} WordSpelled(line: string, pos: nat) returns (pieces: seq<Piece>)
    requires pos <= |line| && WordFrom(line, pos).Ok?
    ensures var r := WordFrom(line, pos);
            && PiecesOk(pieces) && Stands(line, pos, WordText(pieces)) && WordMeans(pieces) == r.word
            && r.next == pos + |WordText(pieces)| && Stop(line, r.next) && (pieces == [] <==> Stop(line, pos))
    decreases |line| - pos
  {
    hide WordFrom, WordText, WordMeans, PieceText, PieceMeans, PieceOk, Stands, Stop;
    if Stop(line, pos) {
      pieces := [];
      WordNone();
      WordStops(line, pos);
      StandsNone(line, pos);
    } else {
      var x := PieceSpelled(line, pos);
      PieceReads(line, pos, x);
      var rest := WordSpelled(line, pos + |PieceText(x)|);
      pieces := [x] + rest;
      WordCons(x, rest);
      StandsJoin(line, pos, PieceText(x), WordText(rest));
    }
  }

  lemma StandsNone(line: string, pos: nat)
    requires pos <= |line|
    ensures Stands(line, pos, "")
  {
  }

  lemma {:induction false} ItemsSpelled(line: string, pos: nat) returns (items: seq<Item>)
    requires pos <= |line| && TokensFrom(line, pos).Some?
    ensures LineOk(items) && LineText(items) == line[pos..] && LineMeans(items) == TokensFrom(line, pos).value
    decreases |line| - pos
  {
    hide TokensFrom, LineText, LineMeans, ItemText, ItemMeans, ItemOk, Stop;
    LineNone(line);
    if pos == |line| {
      items := [];
    } else {
      var x := ItemSpelled(line, pos);
      var next := pos + |ItemText(x)|;
      FirstOf(x);
      var rest := ItemsSpelled(line, next);
      items := [x] + rest;
      LineCons(x, rest);
      assert line[pos..] == ItemText(x) + line[next..];
      NextFirst(line, next, rest);
      LineMore(x, rest);
    }
  }

  lemma LineMore(x: Item, rest: seq<Item>)
    requires ItemOk(x) && LineOk(rest) && (rest != [] ==> Apart(x, rest[0]))
    ensures LineOk([x] + rest)
  {
    var items := [x] + rest;
    forall i: nat | i + 1 < |items| ensures Apart(items[i], items[i + 1]) {
      if i > 0 { assert Apart(rest[i - 1], rest[i - 1 + 1]); }
    }
  }

  /** The first item of a line that is well formed. */
  lemma ItemSpelled(line: string, pos: nat) returns (x: Item)
    requires pos < |line| && TokensFrom(line, pos).Some?
    ensures ItemOk(x) && Stands(line, pos, ItemText(x))
    ensures var next := pos + |ItemText(x)|;
            && TokensFrom(line, next).Some?
            && TokensFrom(line, pos).value == ItemMeans(x) + TokensFrom(line, next).value
            && (x.Spelled? ==> Stop(line, next)) && (x == Sign(Gt) ==> next == |line| || line[next] != '>')
  {
    hide WordFrom, WordText, WordMeans, PiecesOk;
    if IsSpace(line[pos]) {
      x := Gap(line[pos]);
      assert [] + TokensFrom(line, pos + 1).value == TokensFrom(line, pos + 1).value;
    } else if IsSpecial(line[pos]) {
      x := Sign(OperatorAt(line, pos).0);
    } else {
      WordIsOk(line, pos);
      var pieces := WordSpelled(line, pos);
      x := Spelled(pieces);
    }
  }

  lemma WordIsOk(line: string, pos: nat)
    requires pos < |line| && !IsSpace(line[pos]) && !IsSpecial(line[pos]) && TokensFrom(line, pos).Some?
    ensures WordFrom(line, pos).Ok? && TokensFrom(line, WordFrom(line, pos).next).Some?
  {
    hide WordFrom;
  }

  // ---------- the lexer ----------

  ghost predicate Says(line: string, items: seq<Item>, toks: seq<Token>) {
    LineOk(items) && LineText(items) == line && LineMeans(items) == toks
  }

  /** The lexer gives `toks` exactly for the lines that can be written to say them, and fails on all others. */
  lemma LexExact(line: string, toks: seq<Token>)
    ensures TokensFrom(line, 0) == Some(toks) <==> exists items :: Says(line, items, toks)
  {
    assert line[0..] == line;
    if items :| Says(line, items, toks) {
      ItemsRead(line, 0, items);
    }
    if TokensFrom(line, 0) == Some(toks) {
      var items := ItemsSpelled(line, 0);
      assert Says(line, items, toks);
    }
  }

  /** A line says one thing only. */
  lemma OneMeaning(line: string, items: seq<Item>, items': seq<Item>, toks: seq<Token>, toks': seq<Token>)
    requires Says(line, items, toks) && Says(line, items', toks')
    ensures toks == toks'
  {
    LexExact(line, toks);
    LexExact(line, toks');
  }

  /** A word without single quotes, put in single quotes, is read as that one word; so is the empty word. */
  lemma SingleQuoteUndone(w: string)
    requires '\'' !in w
    ensures TokensFrom(['\''] + w + ['\''], 0) == Some([Word(w)])
  {
    OneWord([Single(w)]);
    OnePiece(Single(w));
  }

  lemma OnePiece(x: Piece)
    ensures WordText([x]) == PieceText(x) && WordMeans([x]) == PieceMeans(x)
  {
    hide PieceText, PieceMeans;
    WordCons(x, []);
    assert [x] + [] == [x];
    assert PieceText(x) + "" == PieceText(x) && PieceMeans(x) + "" == PieceMeans(x);
  }

  /** A line of one word. */
  lemma OneWord(pieces: seq<Piece>)
    requires pieces != [] && PiecesOk(pieces)
    ensures TokensFrom(WordText(pieces), 0) == Some([Word(WordMeans(pieces))])
  {
    hide WordText, WordMeans, PiecesOk, TokensFrom;
    var line, x := WordText(pieces), Spelled(pieces);
    LineCons(x, []);
    assert [x] + [] == [x] && line + "" == line && ItemMeans(x) + [] == ItemMeans(x);
    assert line[0..] == line;
    ItemsRead(line, 0, [x]);
  }

  /** Any word with its double quotes and backslashes protected. */
  function Shielded(w: string): seq<Quoted> {
    if w == "" then [] else [if w[0] == '"' || w[0] == '\\' then Protected(w[0]) else Itself(w[0])] + Shielded(w[1..])
  }

  lemma {:induction false} ShieldedMeans(w: string)
    ensures BodyOk(Shielded(w)) && DoubleMeans(Shielded(w)) == w
  {
    if w != "" {
      ShieldedMeans(w[1..]);
      assert Shielded(w)[1..] == Shielded(w[1..]);
      assert [w[0]] + w[1..] == w;
    }
  }

  /** Any word at all, put in double quotes that way, is read as that one word. */
  lemma DoubleQuoteUndone(w: string)
    ensures TokensFrom(['"'] + DoubleText(Shielded(w)) + ['"'], 0) == Some([Word(w)])
  {
    hide DoubleText, DoubleMeans, Shielded, TokensFrom;
    ShieldedMeans(w);
    OneWord([Double(Shielded(w))]);
    OnePiece(Double(Shielded(w)));
  }

  /** No blanks are needed around a sign. */
  lemma SignSplits(a: seq<Piece>, t: Token, b: seq<Piece>)
    requires a != [] && b != [] && PiecesOk(a) && PiecesOk(b) && !t.Word?
    ensures TokensFrom(WordText(a) + SignText(t) + WordText(b), 0) == Some([Word(WordMeans(a)), t, Word(WordMeans(b))])
  {
    hide WordText, WordMeans, PiecesOk, TokensFrom, SignText, LineText, LineMeans;
    var x, y, z := Spelled(a), Sign(t), Spelled(b);
    var line := WordText(a) + SignText(t) + WordText(b);
    LineNone(line);
    LineCons(z, []);
    LineCons(y, [z] + []);
    LineCons(x, [y] + ([z] + []));
    assert [x] + ([y] + ([z] + [])) == [x, y, z];
    assert line == WordText(a) + (SignText(t) + (WordText(b) + ""));
    assert [Word(WordMeans(a))] + ([t] + ([Word(WordMeans(b))] + [])) == [Word(WordMeans(a)), t, Word(WordMeans(b))];
    assert line[0..] == line;
    ItemsRead(line, 0, [x, y, z]);
  }
}

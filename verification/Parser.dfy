/**
  The shell's parser and what runs after it: which token lists are accepted, and how an accepted
  one falls into commands, pipeline stages, arguments and redirections without loss.
 */
module Parser {
  import opened Basics
  import opened ShellTokens

  const MAX_STAGES: nat := 256
  const MAX_ARGS: nat := 255
  const MAX_FILES: nat := 256 // entries of input_files and of output_files

  /** The operator at `i` has a word behind it, or is an `&` at the end. */
  predicate Followed(toks: seq<Token>, i: nat)
    requires i < |toks|
  {
    if i + 1 < |toks| then toks[i + 1].Word? else toks[i].Amp?
  }

  /** From `pos` on every operator is followed. */
  predicate OperatorsOk(toks: seq<Token>, pos: nat) {
    forall i: nat :: pos <= i < |toks| && IsOperator(toks[i]) ==> Followed(toks, i)
  }

  /** What the grammar accepts: nothing, or a word and then words and followed operators. */
  predicate Accepted(toks: seq<Token>) { toks == [] || (toks[0].Word? && OperatorsOk(toks, 0)) }

  /** The recursive-descent parser; its methods share the position. */
  class Descent {
    const toks: seq<Token>
    var pos: nat

    constructor (toks: seq<Token>)
      ensures this.toks == toks && pos == 0
    {
      this.toks := toks;
      pos := 0;
    }

    method Line() returns (ok: bool)
      requires pos == 0
      modifies this
      ensures ok <==> Accepted(toks)
    {
      if pos >= |toks| {
        return true;
      }
      if !toks[pos].Word? {
        return false;
      }
      pos := pos + 1;
      ok := Arg();
    }

    method Arg() returns (ok: bool)
      requires pos <= |toks|
      modifies this
      ensures ok <==> OperatorsOk(toks, old(pos))
      decreases |toks| - pos, 0
    {
      if pos >= |toks| {
        return true;
      }
      match toks[pos]
      case Word(_) =>
        pos := pos + 1;
        ok := Arg();
      case Lt =>
        pos := pos + 1;
        ok := Tgt();
      case Gt =>
        pos := pos + 1;
        ok := Tgt();
      case GtGt =>
        pos := pos + 1;
        ok := Tgt();
      case Pipe =>
        pos := pos + 1;
        ok := Cmd();
      case Semi =>
        pos := pos + 1;
        ok := Cmd();
      case Amp =>
        pos := pos + 1;
        ok := Bg();
    }

    method Cmd() returns (ok: bool)
      requires pos <= |toks|
      modifies this
      ensures ok <==> old(pos) < |toks| && toks[old(pos)].Word? && OperatorsOk(toks, old(pos))
      decreases |toks| - pos, 1
    {
      if pos >= |toks| || !toks[pos].Word? {
        return false;
      }
      pos := pos + 1;
      ok := Arg();
    }

    method Tgt() returns (ok: bool)
      requires pos <= |toks|
      modifies this
      ensures ok <==> old(pos) < |toks| && toks[old(pos)].Word? && OperatorsOk(toks, old(pos))
      decreases |toks| - pos, 1
    {
      if pos >= |toks| || !toks[pos].Word? {
        return false;
      }
      pos := pos + 1;
      ok := Arg();
    }

    method Bg() returns (ok: bool)
      requires pos <= |toks|
      modifies this
      ensures ok <==> old(pos) == |toks| || (toks[old(pos)].Word? && OperatorsOk(toks, old(pos)))
      decreases |toks| - pos, 2
    {
      if pos >= |toks| {
        return true;
      }
      ok := Cmd();
    }
  }

  /** parse_tokens. */
  method ParseTokens(toks: seq<Token>) returns (ok: bool)
    ensures ok <==> Accepted(toks)
  {
    var d := new Descent(toks);
    ok := d.Line();
  }

  // ---------- commands: execute_command_line ----------

  /** A command and the separator that ended it; `&` puts it in the background. */
  datatype Command = Command(tokens: seq<Token>, end: Option<Token>)

  function Whole(c: Command): seq<Token> { c.tokens + if c.end.Some? then [c.end.value] else [] }

  function Rejoined(cmds: seq<Command>): seq<Token> {
    if cmds == [] then [] else Rejoined(cmds[..|cmds| - 1]) + Whole(cmds[|cmds| - 1])
  }

  /** A command: it starts with a word, and every operator in it has a word behind it. */
  predicate PieceOk(tokens: seq<Token>) {
    && tokens != [] && tokens[0].Word?
    && forall i: nat :: i < |tokens| && IsOperator(tokens[i]) ==>
                          !IsSeparator(tokens[i]) && i + 1 < |tokens| && tokens[i + 1].Word?
  }

  /** Cut at `;` and `&`; empty commands would be skipped. */
  method Segment(toks: seq<Token>) returns (cmds: seq<Command>)
    ensures Accepted(toks) ==> Rejoined(cmds) == toks
    ensures Accepted(toks) ==> forall k: nat :: k < |cmds| ==> PieceOk(cmds[k].tokens)
    ensures Cut(cmds, {Semi, Amp})
  {
    hide Accepted, PieceOk, Rejoined;
    cmds := [];
    var i := 0;
    StartsWithWord(toks);
    while i < |toks|
      invariant 0 <= i <= |toks|
      invariant Accepted(toks) ==> Rejoined(cmds) == toks[..i] && (i < |toks| ==> toks[i].Word?)
      invariant Accepted(toks) ==> forall k: nat :: k < |cmds| ==> PieceOk(cmds[k].tokens)
      invariant forall k: nat :: k < |cmds| ==> cmds[k].end.None? || cmds[k].end.value in {Semi, Amp}
      invariant forall k: nat :: k < |cmds| && (k + 1 < |cmds| || i < |toks|) ==> cmds[k].end.Some?
    {
      var start := i;
      while i < |toks| && !IsSeparator(toks[i])
        invariant start <= i <= |toks|
        invariant forall j: nat :: start <= j < i ==> !IsSeparator(toks[j])
      {
        i := i + 1;
      }
      var stop := i;
      var end := None;
      if i < |toks| {
        end := Some(toks[i]);
        i := i + 1;
      }
      if stop == start {
        continue; // an empty command
      }
      var c := Command(toks[start..stop], end);
      if Accepted(toks) { CommandOk(toks, start, stop, cmds, c, i); }
      RejoinedMore(cmds, c);
      cmds := cmds + [c];
    }
    assert toks[..i] == toks;
  }

  lemma StartsWithWord(toks: seq<Token>)
    ensures Rejoined([]) == toks[..0] && (Accepted(toks) && toks != [] ==> toks[0].Word?)
  {
  }

  lemma {:induction false} RejoinedMore(cmds: seq<Command>, c: Command)
    ensures Rejoined(cmds + [c]) == Rejoined(cmds) + Whole(c)
  {
    assert (cmds + [c])[..|cmds|] == cmds;
  }

  lemma CommandOk(toks: seq<Token>, start: nat, stop: nat, cmds: seq<Command>, c: Command, i: nat)
    requires Accepted(toks) && start < stop <= |toks| && toks[start].Word? && Rejoined(cmds) == toks[..start]
    requires forall j: nat :: start <= j < stop ==> !IsSeparator(toks[j])
    requires stop < |toks| ==> IsSeparator(toks[stop])
    requires c == Command(toks[start..stop], if stop < |toks| then Some(toks[stop]) else None)
    requires i == if stop < |toks| then stop + 1 else stop
    ensures PieceOk(c.tokens) && Rejoined(cmds) + Whole(c) == toks[..i] && (i < |toks| ==> toks[i].Word?)
  {
    hide PieceOk, Rejoined;
    StretchOk(toks, start, stop);
    Regrouped(toks, start, stop);
    if stop < |toks| {
      assert Followed(toks, stop);
    }
  }

  /** A stretch between separators is a command. */
  lemma StretchOk(toks: seq<Token>, start: nat, stop: nat)
    requires OperatorsOk(toks, 0) && start < stop <= |toks| && toks[start].Word?
    requires forall j: nat :: start <= j < stop ==> !IsSeparator(toks[j])
    requires stop < |toks| ==> IsSeparator(toks[stop])
    ensures PieceOk(toks[start..stop])
  {
    var piece := toks[start..stop];
    forall j: nat | j < |piece| && IsOperator(piece[j]) ensures !IsSeparator(piece[j]) && j + 1 < |piece|
      && piece[j + 1].Word? {
      assert Followed(toks, start + j);
    }
  }

  lemma Regrouped(toks: seq<Token>, start: nat, stop: nat)
    requires start <= stop <= |toks|
    ensures toks[..start] + (toks[start..stop] + []) == toks[..stop]
    ensures stop < |toks| ==> toks[..start] + (toks[start..stop] + [toks[stop]]) == toks[..stop + 1]
  {
  }

  // ---------- stages: execute_pipeline_fg ----------

  /** How many of the tokens are of the given kinds. */
  function Count(tokens: seq<Token>, kinds: set<Token>): nat {
    if tokens == [] then 0
    else Count(tokens[..|tokens| - 1], kinds) + if tokens[|tokens| - 1] in kinds then 1 else 0
  }

  function Pipes(tokens: seq<Token>): nat { Count(tokens, {Pipe}) }

  /** Stages, each with the `|` behind it. */
  function Piped(stages: seq<seq<Token>>): seq<Token> {
    if stages == [] then [] else Piped(stages[..|stages| - 1]) + stages[|stages| - 1] + [Pipe]
  }

  /** The stages with `|` between them. */
  function PipeJoined(stages: seq<seq<Token>>): seq<Token>
    requires stages != []
  {
    Piped(stages[..|stages| - 1]) + stages[|stages| - 1]
  }

  /** A stage: a word first, a word behind every redirection, and no other operators. */
  predicate StageOk(tokens: seq<Token>) {
    && tokens != [] && tokens[0].Word?
    && forall i: nat :: i < |tokens| && IsOperator(tokens[i]) ==>
                          IsRedirection(tokens[i]) && i + 1 < |tokens| && tokens[i + 1].Word?
  }

  lemma CountMore(tokens: seq<Token>, kinds: set<Token>, i: nat)
    requires i < |tokens|
    ensures Count(tokens[..i + 1], kinds) == Count(tokens[..i], kinds) + if tokens[i] in kinds then 1 else 0
  {
    assert tokens[..i + 1][..i] == tokens[..i];
  }

  lemma {:induction false} CountPart(tokens: seq<Token>, kinds: set<Token>, a: nat, b: nat)
    requires a <= b <= |tokens|
    ensures Count(tokens[a..b], kinds) <= Count(tokens, kinds)
    decreases |tokens|
  {
    if b < |tokens| {
      assert tokens[..|tokens| - 1][a..b] == tokens[a..b];
      CountPart(tokens[..|tokens| - 1], kinds, a, b);
    } else if a < b {
      assert tokens[a..b][..b - a - 1] == tokens[..|tokens| - 1][a..b - 1];
      CountPart(tokens[..|tokens| - 1], kinds, a, b - 1);
    }
  }

  /** num_stages: the pipes before the first separator, and one. */
  method CountStages(tokens: seq<Token>) returns (n: nat)
    ensures n >= 1 && (PieceOk(tokens) ==> n == Pipes(tokens) + 1)
  {
    n := 1;
    var i := 0;
    while i < |tokens|
      invariant 0 <= i <= |tokens| && n == Pipes(tokens[..i]) + 1
    {
      CountMore(tokens, {Pipe}, i);
      if IsSeparator(tokens[i]) {
        break;
      }
      if tokens[i].Pipe? {
        n := n + 1;
      }
      i := i + 1;
    }
    assert i == |tokens| ==> tokens[..i] == tokens;
  }

  /** The stages of a command; None where the shell prints "invalid syntax". */
  method SplitStages(tokens: seq<Token>) returns (r: Option<seq<seq<Token>>>)
    ensures PieceOk(tokens) ==> (r.Some? <==> Pipes(tokens) + 1 <= MAX_STAGES)
    ensures PieceOk(tokens) && r.Some? ==> |r.value| == Pipes(tokens) + 1 && Joined(r.value, tokens)
    ensures r.Some? && |r.value| > 1 ==> forall k: nat :: k < |r.value| ==> r.value[k] != []
  {
    hide SplitSoFar, Joined, PieceOk;
    var n := CountStages(tokens);
    if n == 1 {
      if PieceOk(tokens) { OneStage(tokens); }
      return Some([tokens]);
    }
    var stages: seq<seq<Token>> := [];
    var start, i := 0, 0;
    if PieceOk(tokens) { NothingSplit(tokens); }
    while i < |tokens|
      invariant 0 <= start <= i <= |tokens| && |stages| <= MAX_STAGES
      invariant PieceOk(tokens) ==> SplitSoFar(tokens, stages, start, i)
    {
      if IsSeparator(tokens[i]) {
        if i > start && |stages| < MAX_STAGES {
          stages := stages + [tokens[start..i]];
        }
        break;
      }
      if PieceOk(tokens) { OneMore(tokens, stages, start, i); }
      if tokens[i].Pipe? {
        if |stages| < MAX_STAGES {
          stages := stages + [tokens[start..i]];
        }
        start := i + 1;
      }
      i := i + 1;
    }
    if PieceOk(tokens) && i < |tokens| { NoSeparators(tokens, i); }
    if PieceOk(tokens) { AllSplit(tokens, stages, start); }
    if start < |tokens| && |stages| < MAX_STAGES && !IsSeparator(tokens[start]) {
      stages := stages + [tokens[start..]];
    }
    if |stages| < n {
      return None;
    }
    i := 0;
    while i < |stages|
      invariant 0 <= i <= |stages| && forall k: nat :: k < i ==> stages[k] != []
    {
      if |stages[i]| == 0 {
        if PieceOk(tokens) { NoEmptyStage(stages, tokens, i); }
        return None;
      }
      i := i + 1;
    }
    return Some(stages);
  }

  /** The stages are in order and make up the command. */
  ghost predicate Joined(stages: seq<seq<Token>>, tokens: seq<Token>) {
    stages != [] && PipeJoined(stages) == tokens && forall k: nat :: k < |stages| ==> StageOk(stages[k])
  }

  lemma NoSeparators(tokens: seq<Token>, i: nat)
    requires PieceOk(tokens) && i < |tokens|
    ensures !IsSeparator(tokens[i])
  {
  }

  lemma NoEmptyStage(stages: seq<seq<Token>>, tokens: seq<Token>, i: nat)
    requires Joined(stages, tokens) && i < |stages|
    ensures stages[i] != []
  {
  }

  /** What the loop has cut off: everything before `start`, unless there are too many stages. */
  ghost predicate SplitSoFar(tokens: seq<Token>, stages: seq<seq<Token>>, start: nat, i: nat) {
    && start <= i <= |tokens|
    && |stages| == (if Pipes(tokens[..i]) <= MAX_STAGES then Pipes(tokens[..i]) else MAX_STAGES)
    && (forall j: nat :: start <= j < i ==> !tokens[j].Pipe?)
    && (start < |tokens| ==> tokens[start].Word?) && (start == 0 || tokens[start - 1].Pipe?)
    && (Pipes(tokens[..i]) <= MAX_STAGES ==> Piped(stages) == tokens[..start])
    && (forall k: nat :: k < |stages| ==> StageOk(stages[k]))
  }

  lemma NothingSplit(tokens: seq<Token>)
    requires PieceOk(tokens)
    ensures SplitSoFar(tokens, [], 0, 0)
  {
  }

  lemma PipedMore(stages: seq<seq<Token>>, stage: seq<Token>)
    ensures Piped(stages + [stage]) == Piped(stages) + stage + [Pipe]
    ensures PipeJoined(stages + [stage]) == Piped(stages) + stage
  {
    assert (stages + [stage])[..|stages|] == stages;
  }

  lemma StageFits(tokens: seq<Token>, start: nat, i: nat)
    requires PieceOk(tokens) && start < i <= |tokens| && tokens[start].Word? && (i < |tokens| ==> tokens[i].Pipe?)
    requires forall j: nat :: start <= j < i ==> !tokens[j].Pipe?
    ensures StageOk(tokens[start..i])
  {
    var stage := tokens[start..i];
    forall j: nat | j < |stage| && IsOperator(stage[j]) ensures IsRedirection(stage[j]) && j + 1 < |stage|
      && stage[j + 1].Word? {
      assert stage[j] == tokens[start + j];
    }
  }

  lemma OneStage(tokens: seq<Token>)
    requires PieceOk(tokens) && Pipes(tokens) == 0
    ensures Joined([tokens], tokens)
  {
    forall j: nat | j < |tokens| ensures !tokens[j].Pipe? {
      NoPipes(tokens, j);
    }
    StageFits(tokens, 0, |tokens|);
    assert tokens[0..|tokens|] == tokens;
    assert [tokens][..0] == [];
  }

  lemma {:induction false} NoPipes(tokens: seq<Token>, j: nat)
    requires Pipes(tokens) == 0 && j < |tokens|
    ensures !tokens[j].Pipe?
  {
    if j < |tokens| - 1 {
      NoPipes(tokens[..|tokens| - 1], j);
    }
  }

  /** One round of the loop. */
  lemma OneMore(tokens: seq<Token>, stages: seq<seq<Token>>, start: nat, i: nat)
    requires PieceOk(tokens) && SplitSoFar(tokens, stages, start, i) && i < |tokens|
    ensures !tokens[i].Pipe? ==> SplitSoFar(tokens, stages, start, i + 1)
    ensures tokens[i].Pipe? && |stages| < MAX_STAGES ==> SplitSoFar(tokens, stages + [tokens[start..i]], i + 1, i + 1)
    ensures tokens[i].Pipe? && |stages| == MAX_STAGES ==> SplitSoFar(tokens, stages, i + 1, i + 1)
  {
    hide PieceOk, StageOk, Count, Piped;
    CountMore(tokens, {Pipe}, i);
    if tokens[i].Pipe? {
      WordBehind(tokens, i);
      StageFits(tokens, start, i);
      PipedMore(stages, tokens[start..i]);
      StretchMore(tokens, start, i);
    }
  }

  lemma WordBehind(tokens: seq<Token>, i: nat)
    requires PieceOk(tokens) && i < |tokens| && tokens[i].Pipe?
    ensures i + 1 < |tokens| && tokens[i + 1].Word?
  {
    assert IsOperator(tokens[i]);
  }

  lemma StretchMore(tokens: seq<Token>, start: nat, i: nat)
    requires start <= i < |tokens|
    ensures tokens[..start] + tokens[start..i] + [tokens[i]] == tokens[..i + 1]
  {
  }

  lemma AllSplit(tokens: seq<Token>, stages: seq<seq<Token>>, start: nat)
    requires PieceOk(tokens) && SplitSoFar(tokens, stages, start, |tokens|)
    ensures start < |tokens| && tokens[start].Word?
    ensures |stages| == if Pipes(tokens) <= MAX_STAGES then Pipes(tokens) else MAX_STAGES
    ensures |stages| < MAX_STAGES ==> Joined(stages + [tokens[start..]], tokens)
  {
    assert tokens[..|tokens|] == tokens && tokens[start..|tokens|] == tokens[start..];
    assert start < |tokens| by { LastStart(tokens, start); }
    StageFits(tokens, start, |tokens|);
    if |stages| < MAX_STAGES {
      JoinLast(stages, tokens, start);
    }
    hide PieceOk, StageOk, Joined;
  }

  lemma JoinLast(stages: seq<seq<Token>>, tokens: seq<Token>, start: nat)
    requires start <= |tokens| && Piped(stages) == tokens[..start] && StageOk(tokens[start..])
    requires forall k: nat :: k < |stages| ==> StageOk(stages[k])
    ensures Joined(stages + [tokens[start..]], tokens)
  {
    hide StageOk, Piped, PipeJoined;
    var last := tokens[start..];
    PipedMore(stages, last);
    assert tokens[..start] + last == tokens;
    forall k: nat | k < |stages + [last]| ensures StageOk((stages + [last])[k]) {
      assert k < |stages| ==> StageOk(stages[k]);
    }
  }

  lemma LastStart(tokens: seq<Token>, start: nat)
    requires PieceOk(tokens) && start <= |tokens| && (start == 0 || tokens[start - 1].Pipe?)
    ensures start < |tokens|
  {
    assert start > 0 ==> IsOperator(tokens[start - 1]);
  }

  // ---------- arguments and redirections: execute_cmd_internal ----------

  datatype Output = Output(path: string, append: bool)

  /** Every redirection met by the scan has a word behind it. */
  predicate RedirectionsOk(tokens: seq<Token>) {
    if tokens == [] || IsSeparator(tokens[0]) then true
    else if IsRedirection(tokens[0]) then |tokens| >= 2 && tokens[1].Word? && RedirectionsOk(tokens[2..])
    else RedirectionsOk(tokens[1..])
  }

  /** The tokens at the front are a redirection and its file. */
  predicate AtFile(tokens: seq<Token>) { |tokens| >= 2 && IsRedirection(tokens[0]) && tokens[1].Word? }

  /** The scan has come to its end, or to a redirection without a file. */
  predicate AtEnd(tokens: seq<Token>) {
    tokens == [] || IsSeparator(tokens[0]) || (IsRedirection(tokens[0]) && !AtFile(tokens))
  }

  /** The words that are not behind a redirection, as far as the scan goes. */
  function Args(tokens: seq<Token>): seq<string> {
    if AtEnd(tokens) then []
    else if AtFile(tokens) then Args(tokens[2..])
    else (if tokens[0].Word? then [tokens[0].text] else []) + Args(tokens[1..])
  }

  function Inputs(tokens: seq<Token>): seq<string> {
    if AtEnd(tokens) then []
    else if AtFile(tokens) then (if tokens[0].Lt? then [tokens[1].text] else []) + Inputs(tokens[2..])
    else Inputs(tokens[1..])
  }

  function Outputs(tokens: seq<Token>): seq<Output> {
    if AtEnd(tokens) then []
    else if AtFile(tokens) then
      (if tokens[0].Lt? then [] else [Output(tokens[1].text, tokens[0].GtGt?)]) + Outputs(tokens[2..])
    else Outputs(tokens[1..])
  }

  /** More redirections of one direction than the arrays of the executor hold. */
  predicate Overruns(tokens: seq<Token>) { |Inputs(tokens)| > MAX_FILES || |Outputs(tokens)| > MAX_FILES }

  /** The scan as far as it has come, with all the arguments there are. */
  ghost predicate ScanAt(tokens: seq<Token>, i: nat, args: seq<string>, inputs: seq<string>, outputs: seq<Output>) {
    && i <= |tokens| && (RedirectionsOk(tokens) <==> RedirectionsOk(tokens[i..]))
    && Args(tokens) == args + Args(tokens[i..])
    && Inputs(tokens) == inputs + Inputs(tokens[i..]) && Outputs(tokens) == outputs + Outputs(tokens[i..])
  }

  function Clip(s: seq<string>, n: nat): seq<string> { if |s| <= n then s else s[..n] }

  /** What becomes of a scan; an overrun is a write past the end of one of the arrays. */
  datatype Scan = Scanned(argv: seq<string>, inputs: seq<string>, outputs: seq<Output>) | BadSyntax | Overrun

  /** The scan of one command: arguments, at most 255 of them, and redirections in order. */
  method ScanCommand(tokens: seq<Token>) returns (r: Scan)
    ensures r.Overrun? <==> Overruns(tokens)
    ensures r.BadSyntax? <==> !RedirectionsOk(tokens) && !Overruns(tokens)
    ensures r.Scanned? ==> r == Scanned(Clip(Args(tokens), MAX_ARGS), Inputs(tokens), Outputs(tokens))
  {
    hide ScanAt, RedirectionsOk, Args, Inputs, Outputs;
    var argv: seq<string>, inputs: seq<string>, outputs: seq<Output> := [], [], [];
    ghost var args: seq<string> := [];
    var i := 0;
    ScanStart(tokens);
    while i < |tokens| && !IsSeparator(tokens[i])
      invariant 0 <= i <= |tokens| && argv == Clip(args, MAX_ARGS) && ScanAt(tokens, i, args, inputs, outputs)
      invariant |inputs| <= MAX_FILES && |outputs| <= MAX_FILES
    {
      ScanOne(tokens, i, args, inputs, outputs);
      var t := tokens[i];
      if IsRedirection(t) {
        if i + 1 < |tokens| && tokens[i + 1].Word? {
          var path := tokens[i + 1].text;
          if t.Lt? {
            ScanGrows(tokens, i + 2, args, inputs + [path], outputs);
            if |inputs| == MAX_FILES {
              return Overrun;
            }
            inputs := inputs + [path];
          } else {
            ScanGrows(tokens, i + 2, args, inputs, outputs + [Output(path, t.GtGt?)]);
            if |outputs| == MAX_FILES {
              return Overrun;
            }
            outputs := outputs + [Output(path, t.GtGt?)];
          }
          i := i + 1; // the file name is done with
        } else {
          return BadSyntax;
        }
      } else if t.Word? {
        args := args + [t.text];
        if |argv| < MAX_ARGS {
          argv := argv + [t.text];
        }
      }
      i := i + 1;
    }
    ScanEnd(tokens, i, args, inputs, outputs);
    return Scanned(argv, inputs, outputs);
  }

  lemma ScanStart(tokens: seq<Token>)
    ensures ScanAt(tokens, 0, [], [], [])
  {
    assert tokens[0..] == tokens;
  }

  /** What has been found is there to stay. */
  lemma ScanGrows(tokens: seq<Token>, i: nat, args: seq<string>, inputs: seq<string>, outputs: seq<Output>)
    requires ScanAt(tokens, i, args, inputs, outputs)
    ensures |Inputs(tokens)| >= |inputs| && |Outputs(tokens)| >= |outputs|
  {
    hide Args, Inputs, Outputs, RedirectionsOk;
  }

  lemma ScanEnd(tokens: seq<Token>, i: nat, args: seq<string>, inputs: seq<string>, outputs: seq<Output>)
    requires ScanAt(tokens, i, args, inputs, outputs) && (i == |tokens| || IsSeparator(tokens[i]))
    ensures RedirectionsOk(tokens) && Args(tokens) == args && Inputs(tokens) == inputs && Outputs(tokens) == outputs
  {
    assert i < |tokens| ==> tokens[i..][0] == tokens[i];
    assert args + [] == args && inputs + [] == inputs && outputs + [] == outputs;
  }

  lemma ScanOne(tokens: seq<Token>, i: nat, args: seq<string>, inputs: seq<string>, outputs: seq<Output>)
    requires ScanAt(tokens, i, args, inputs, outputs) && i < |tokens| && !IsSeparator(tokens[i])
    ensures IsRedirection(tokens[i]) && !(i + 1 < |tokens| && tokens[i + 1].Word?) ==>
              !RedirectionsOk(tokens) && Inputs(tokens) == inputs && Outputs(tokens) == outputs
    ensures tokens[i].Lt? && i + 1 < |tokens| && tokens[i + 1].Word? ==>
              ScanAt(tokens, i + 2, args, inputs + [tokens[i + 1].text], outputs)
    ensures (tokens[i].Gt? || tokens[i].GtGt?) && i + 1 < |tokens| && tokens[i + 1].Word? ==>
              ScanAt(tokens, i + 2, args, inputs, outputs + [Output(tokens[i + 1].text, tokens[i].GtGt?)])
    ensures tokens[i].Word? ==> ScanAt(tokens, i + 1, args + [tokens[i].text], inputs, outputs)
    ensures tokens[i].Pipe? ==> ScanAt(tokens, i + 1, args, inputs, outputs)
  {
    hide ScanAt, RedirectionsOk, Args, Inputs, Outputs;
    if IsRedirection(tokens[i]) {
      ScanRedirection(tokens, i, args, inputs, outputs);
    } else {
      ScanPlain(tokens, i, args, inputs, outputs);
    }
  }

  lemma ScanRedirection(tokens: seq<Token>, i: nat, args: seq<string>, inputs: seq<string>, outputs: seq<Output>)
    requires ScanAt(tokens, i, args, inputs, outputs) && i < |tokens| && IsRedirection(tokens[i])
    ensures if i + 1 < |tokens| && tokens[i + 1].Word? then
              if tokens[i].Lt? then ScanAt(tokens, i + 2, args, inputs + [tokens[i + 1].text], outputs)
              else ScanAt(tokens, i + 2, args, inputs, outputs + [Output(tokens[i + 1].text, tokens[i].GtGt?)])
            else !RedirectionsOk(tokens) && Inputs(tokens) == inputs && Outputs(tokens) == outputs
  {
    hide RedirectionsOk, Args, Inputs, Outputs;
    RedirectionAt(tokens, i);
    if i + 1 < |tokens| && tokens[i + 1].Word? {
      var path := tokens[i + 1].text;
      Regroup(inputs, path, Inputs(tokens[i + 2..]));
      Regroup(outputs, Output(path, tokens[i].GtGt?), Outputs(tokens[i + 2..]));
    } else {
      assert inputs + [] == inputs && outputs + [] == outputs;
    }
  }

  lemma Regroup<T>(s: seq<T>, x: T, t: seq<T>)
    ensures s + ([x] + t) == (s + [x]) + t && [] + t == t
  {
  }

  /** A redirection adds its file, and the scan goes on two tokens later. */
  lemma RedirectionAt(tokens: seq<Token>, i: nat)
    requires i < |tokens| && IsRedirection(tokens[i])
    ensures if i + 1 < |tokens| && tokens[i + 1].Word? then
              && (RedirectionsOk(tokens[i..]) <==> RedirectionsOk(tokens[i + 2..]))
              && Args(tokens[i..]) == Args(tokens[i + 2..])
              && Inputs(tokens[i..]) == (if tokens[i].Lt? then [tokens[i + 1].text] else []) + Inputs(tokens[i + 2..])
              && Outputs(tokens[i..]) ==
                 (if tokens[i].Lt? then [] else [Output(tokens[i + 1].text,
                                                        tokens[i].GtGt?)]) + Outputs(tokens[i + 2..])
            else !RedirectionsOk(tokens[i..]) && Inputs(tokens[i..]) == [] && Outputs(tokens[i..]) == []
  {
    var rest := tokens[i..];
    assert rest[0] == tokens[i];
    if i + 1 < |tokens| {
      assert rest[1] == tokens[i + 1] && rest[2..] == tokens[i + 2..];
    }
  }

  lemma ScanPlain(tokens: seq<Token>, i: nat, args: seq<string>, inputs: seq<string>, outputs: seq<Output>)
    requires ScanAt(tokens, i, args, inputs, outputs) && i < |tokens| && !IsSeparator(tokens[i])
    requires !IsRedirection(tokens[i])
    ensures ScanAt(tokens, i + 1, args + (if tokens[i].Word? then [tokens[i].text] else []), inputs, outputs)
    ensures tokens[i].Pipe? ==> ScanAt(tokens, i + 1, args, inputs, outputs)
  {
    hide RedirectionsOk, Args, Inputs, Outputs;
    PlainAt(tokens, i);
    var more := if tokens[i].Word? then [tokens[i].text] else [];
    assert args + (more + Args(tokens[i + 1..])) == (args + more) + Args(tokens[i + 1..]);
    assert tokens[i].Pipe? ==> args + more == args;
  }

  lemma PlainAt(tokens: seq<Token>, i: nat)
    requires i < |tokens| && !IsSeparator(tokens[i]) && !IsRedirection(tokens[i])
    ensures RedirectionsOk(tokens[i..]) <==> RedirectionsOk(tokens[i + 1..])
    ensures Args(tokens[i..]) == (if tokens[i].Word? then [tokens[i].text] else []) + Args(tokens[i + 1..])
    ensures Inputs(tokens[i..]) == Inputs(tokens[i + 1..]) && Outputs(tokens[i..]) == Outputs(tokens[i + 1..])
  {
    assert tokens[i..][0] == tokens[i] && tokens[i..][1..] == tokens[i + 1..];
  }

  /** A stage of an accepted line scans without error, starting with its first word, and nothing in it is lost. */
  lemma {:induction false} StageScans(tokens: seq<Token>)
    requires StageOk(tokens)
    ensures RedirectionsOk(tokens) && Args(tokens) != [] && Args(tokens)[0] == tokens[0].text
    ensures |Args(tokens)| + 2 * |Inputs(tokens)| + 2 * |Outputs(tokens)| == |tokens|
    ensures |Inputs(tokens)| == Count(tokens, {Lt}) && |Outputs(tokens)| == Count(tokens, {Gt, GtGt})
  {
    hide RedirectionsOk, Args, Inputs, Outputs, Count;
    TailScans(tokens, 1);
    assert tokens[0..] == tokens;
    PlainAt(tokens, 0);
    CountMore(tokens, {Lt}, 0);
    CountMore(tokens, {Gt, GtGt}, 0);
    CountSplit(tokens, {Lt}, 1);
    CountSplit(tokens, {Gt, GtGt}, 1);
    CountNone({Lt});
    CountNone({Gt, GtGt});
  }

  lemma CountNone(kinds: set<Token>)
    ensures Count([], kinds) == 0
  {
  }

  lemma {:induction false} CountSplit(tokens: seq<Token>, kinds: set<Token>, i: nat)
    requires i <= |tokens|
    ensures Count(tokens, kinds) == Count(tokens[..i], kinds) + Count(tokens[i..], kinds)
    decreases |tokens|
  {
    if i == |tokens| {
      assert tokens[..i] == tokens;
    } else {
      var front := tokens[..|tokens| - 1];
      CountSplit(front, kinds, i);
      assert front[..i] == tokens[..i] && tokens[i..][..|tokens| - i - 1] == front[i..];
    }
  }

  /** How many files the rest of a stage names, and that it has an even share for each. */
  ghost predicate Tallied(rest: seq<Token>) {
    && RedirectionsOk(rest) && |Args(rest)| + 2 * |Inputs(rest)| + 2 * |Outputs(rest)| == |rest|
    && |Inputs(rest)| == Count(rest, {Lt}) && |Outputs(rest)| == Count(rest, {Gt, GtGt})
  }

  lemma {:induction false} TailScans(tokens: seq<Token>, i: nat)
    requires StageOk(tokens) && i <= |tokens|
    ensures Tallied(tokens[i..])
    decreases |tokens| - i
  {
    hide RedirectionsOk, Args, Inputs, Outputs, Count;
    if i == |tokens| {
      assert tokens[i..] == [];
      NothingScanned();
    } else {
      var step := if IsRedirection(tokens[i]) then 2 else 1;
      TailScans(tokens, i + step);
      if step == 2 { RedirectionAt(tokens, i); } else { PlainAt(tokens, i); }
      CountFront(tokens, {Lt}, i, step);
      CountFront(tokens, {Gt, GtGt}, i, step);
    }
  }

  lemma NothingScanned()
    ensures Tallied([])
  {
  }

  /** The first one or two tokens, the second being a word, and the rest. */
  lemma CountFront(tokens: seq<Token>, kinds: set<Token>, i: nat, step: nat)
    requires i + step <= |tokens| && 1 <= step <= 2 && (step == 2 ==> tokens[i + 1] !in kinds)
    ensures Count(tokens[i..], kinds) == Count(tokens[i + step..], kinds) + if tokens[i] in kinds then 1 else 0
  {
    var rest := tokens[i..];
    CountSplit(rest, kinds, step);
    assert rest[step..] == tokens[i + step..];
    CountMore(rest, kinds, 0);
    if step == 2 { CountMore(rest, kinds, 1); }
    assert rest[..0] == [];
  }

  // ---------- stages as they are meant ----------

  /** An argument, or a redirection and its file. */
  datatype Part = Argument(word: string) | From(word: string) | To(word: string, append: bool)

  function PartTokens(x: Part): seq<Token> {
    match x
    case Argument(w) => [Word(w)]
    case From(w) => [Lt, Word(w)]
    case To(w, append) => [if append then GtGt else Gt, Word(w)]
  }

  function StageTokens(parts: seq<Part>): seq<Token> {
    if parts == [] then [] else PartTokens(parts[0]) + StageTokens(parts[1..])
  }

  /** What is read from `parts`: arguments, inputs and outputs, each in order. */
  function Meant(parts: seq<Part>): (seq<string>, seq<string>, seq<Output>) {
    if parts == [] then ([], [], [])
    else
      var rest := Meant(parts[1..]);
      match parts[0]
      case Argument(w) => ([w] + rest.0, rest.1, rest.2)
      case From(w) => (rest.0, [w] + rest.1, rest.2)
      case To(w, append) => (rest.0, rest.1, [Output(w, append)] + rest.2)
  }

  /** The scan reads a stage as what it was put together from. */
  lemma {:induction false} ScanReadsParts(parts: seq<Part>)
    ensures RedirectionsOk(StageTokens(parts))
    ensures (Args(StageTokens(parts)), Inputs(StageTokens(parts)), Outputs(StageTokens(parts))) == Meant(parts)
  {
    hide RedirectionsOk, Args, Inputs, Outputs;
    NothingRead();
    if parts != [] {
      var x, rest := PartTokens(parts[0]), StageTokens(parts[1..]);
      ScanReadsParts(parts[1..]);
      var tokens := x + rest;
      assert tokens[0..] == tokens && tokens[|x|..] == rest;
      if parts[0].Argument? { PlainAt(tokens, 0); } else { RedirectionAt(tokens, 0); }
      assert [] + Inputs(rest) == Inputs(rest) && [] + Outputs(rest) == Outputs(rest);
    }
  }

  lemma NothingRead()
    ensures RedirectionsOk([]) && Args([]) == [] && Inputs([]) == [] && Outputs([]) == []
  {
  }

  /** And every stage is put together from such parts, an argument first. */
  lemma StageHasParts(tokens: seq<Token>) returns (parts: seq<Part>)
    requires StageOk(tokens)
    ensures parts != [] && parts[0] == Argument(tokens[0].text) && StageTokens(parts) == tokens
  {
    var rest := TailHasParts(tokens, 1);
    parts := [Argument(tokens[0].text)] + rest;
    assert parts[1..] == rest;
    assert [tokens[0]] + tokens[1..] == tokens;
  }

  lemma {:induction false} TailHasParts(tokens: seq<Token>, i: nat) returns (parts: seq<Part>)
    requires StageOk(tokens) && i <= |tokens|
    ensures StageTokens(parts) == tokens[i..]
    decreases |tokens| - i
  {
    if i == |tokens| {
      parts := [];
    } else {
      var x := if tokens[i].Word? then Argument(tokens[i].text) else PartAt(tokens, i);
      var rest := TailHasParts(tokens, i + |PartTokens(x)|);
      parts := [x] + rest;
      assert parts[1..] == rest;
      assert tokens[i..] == PartTokens(x) + tokens[i + |PartTokens(x)|..];
    }
  }

  function PartAt(tokens: seq<Token>, i: nat): (x: Part)
    requires StageOk(tokens) && i < |tokens| && !tokens[i].Word?
    ensures i + 2 <= |tokens| && PartTokens(x) == [tokens[i], tokens[i + 1]]
  {
    assert IsOperator(tokens[i]);
    if tokens[i].Lt? then From(tokens[i + 1].text) else To(tokens[i + 1].text, tokens[i].GtGt?)
  }

  // ---------- a whole line ----------

  /** A stage with more than 256 inputs, or more than 256 outputs. */
  predicate Crowded(tokens: seq<Token>) {
    StageOk(tokens) && (Count(tokens, {Lt}) > MAX_FILES || Count(tokens, {Gt, GtGt}) > MAX_FILES)
  }

  /** Some stage of the tokens is crowded. */
  ghost predicate HasCrowd(tokens: seq<Token>) {
    exists a: nat, b: nat :: a <= b <= |tokens| && Crowded(tokens[a..b])
  }

  /** Some command of the line has more than 256 stages. */
  ghost predicate TooLong(toks: seq<Token>) {
    exists a: nat, b: nat :: a <= b <= |toks| && PieceOk(toks[a..b]) && Pipes(toks[a..b]) + 1 > MAX_STAGES
  }

  datatype Verdict = Clean | Refused | Overran

  /** The checks on one command: its stages are split, and then each is scanned. */
  method CheckCommand(tokens: seq<Token>) returns (v: Verdict)
    requires PieceOk(tokens)
    ensures v == Refused <==> Pipes(tokens) + 1 > MAX_STAGES
    ensures v == Overran <==> Pipes(tokens) + 1 <= MAX_STAGES && HasCrowd(tokens)
  {
    hide PieceOk, Pipes, HasCrowd, Crowded, StageOk, Count, PipeJoined;
    var stages := SplitStages(tokens);
    if stages.None? {
      return Refused;
    }
    var j := 0;
    while j < |stages.value|
      invariant 0 <= j <= |stages.value| && forall k: nat :: k < j ==> !Crowded(stages.value[k])
    {
      StageScans(stages.value[j]);
      StageVerdict(stages.value[j]);
      var r := ScanCommand(stages.value[j]);
      if r.Overrun? {
        OneCrowd(stages.value, tokens, j);
        return Overran;
      }
      if r.BadSyntax? || r.argv == [] {
        return Refused;
      }
      j := j + 1;
    }
    if HasCrowd(tokens) { CrowdedStage(stages.value, tokens); }
    return Clean;
  }

  lemma StageVerdict(stage: seq<Token>)
    requires StageOk(stage) && |Inputs(stage)| == Count(stage, {Lt}) && |Outputs(stage)| == Count(stage, {Gt, GtGt})
    ensures Crowded(stage) <==> Overruns(stage)
  {
  }

  /** The stages as commands that end in a pipe. */
  function PipeCommands(stages: seq<seq<Token>>): seq<Command> {
    if stages == [] then [] else PipeCommands(stages[..|stages| - 1]) + [Command(stages[|stages| - 1], Some(Pipe))]
  }

  function StageCommands(stages: seq<seq<Token>>): seq<Command>
    requires stages != []
  {
    PipeCommands(stages[..|stages| - 1]) + [Command(stages[|stages| - 1], None)]
  }

  lemma {:induction false} PipeCommandsAre(stages: seq<seq<Token>>)
    ensures Rejoined(PipeCommands(stages)) == Piped(stages) && |PipeCommands(stages)| == |stages|
    ensures forall k: nat :: k < |stages| ==> PipeCommands(stages)[k] == Command(stages[k], Some(Pipe))
  {
    if stages != [] {
      var less := stages[..|stages| - 1];
      PipeCommandsAre(less);
      RejoinedMore(PipeCommands(less), Command(stages[|stages| - 1], Some(Pipe)));
      assert Piped(less) + (stages[|stages| - 1] + [Pipe]) == Piped(less) + stages[|stages| - 1] + [Pipe];
    }
  }

  lemma {:induction false} StageCommandsAre(stages: seq<seq<Token>>)
    requires stages != []
    ensures Rejoined(StageCommands(stages)) == PipeJoined(stages) && |StageCommands(stages)| == |stages|
    ensures forall k: nat :: k < |stages| ==> StageCommands(stages)[k].tokens == stages[k]
    ensures Cut(StageCommands(stages), {Pipe})
  {
    hide Rejoined, Piped, PipeCommands;
    var less, last := stages[..|stages| - 1], Command(stages[|stages| - 1], None);
    PipeCommandsAre(less);
    RejoinedMore(PipeCommands(less), last);
    assert Whole(last) == stages[|stages| - 1];
  }

  lemma {:induction false} OneCrowd(stages: seq<seq<Token>>, tokens: seq<Token>, j: nat)
    requires Joined(stages, tokens) && j < |stages| && Crowded(stages[j])
    ensures HasCrowd(tokens)
  {
    hide Crowded, PipeJoined, StageCommands, Rejoined;
    StageCommandsAre(stages);
    var a, b := PieceInside(StageCommands(stages), j);
  }

  lemma {:induction false} CrowdedStage(stages: seq<seq<Token>>, tokens: seq<Token>)
    requires Joined(stages, tokens) && HasCrowd(tokens)
    ensures exists k: nat :: k < |stages| && Crowded(stages[k])
  {
    hide PipeJoined, StageCommands, Rejoined, Count, HasCrowd;
    StageCommandsAre(stages);
    var a, b := TheCrowd(tokens);
    var k := CrowdInside(StageCommands(stages), tokens, a, b, {Pipe});
    assert StageOk(stages[k]) && Crowded(stages[k]);
  }

  /** A crowded stretch lies in one command, which then has as many redirections. */
  lemma {:induction false} CrowdInside(cmds: seq<Command>, toks: seq<Token>, a: nat, b: nat,
                                       ends: set<Token>) returns (k: nat)
    requires Cut(cmds, ends) && Rejoined(cmds) == toks && a <= b <= |toks| && Crowded(toks[a..b])
    requires ends == {Pipe} || ends == {Semi, Amp}
    ensures k < |cmds| && HasCrowd(cmds[k].tokens)
    ensures Count(cmds[k].tokens, {Lt}) > MAX_FILES || Count(cmds[k].tokens, {Gt, GtGt}) > MAX_FILES
  {
    hide Count, Rejoined;
    forall i: nat | a <= i < b ensures toks[i] !in ends {
      assert toks[a..b][i - a] == toks[i];
    }
    var x, y;
    k, x, y := InsidePiece(cmds, ends, a, b);
    assert Crowded(cmds[k].tokens[x..y]);
    CountPart(cmds[k].tokens, {Lt}, x, y);
    CountPart(cmds[k].tokens, {Gt, GtGt}, x, y);
  }

  /**
    A line the parser accepts goes through all later checks exactly when no command has more than
    256 stages and no stage more than 256 inputs or 256 outputs.
   */
  method RunAccepted(toks: seq<Token>) returns (parsed: bool, v: Verdict)
    ensures parsed <==> Accepted(toks)
    ensures v != Clean <==> parsed && (TooLong(toks) || HasCrowd(toks))
    ensures (v == Refused ==> TooLong(toks)) && (v == Overran ==> HasCrowd(toks))
  {
    hide Accepted, PieceOk, Pipes, TooLong, Rejoined, HasCrowd;
    v := Clean;
    parsed := ParseTokens(toks);
    if !parsed {
      return;
    }
    var cmds := Segment(toks);
    var k := 0;
    while k < |cmds|
      invariant 0 <= k <= |cmds| && v == Clean
      invariant forall i: nat :: i < k ==> Pipes(cmds[i].tokens) + 1 <= MAX_STAGES && !HasCrowd(cmds[i].tokens)
    {
      v := CheckCommand(cmds[k].tokens);
      if v != Clean {
        OneTooLong(cmds, k);
        return;
      }
      k := k + 1;
    }
    NoneTooLong(cmds);
  }

  lemma {:induction false} OneTooLong(cmds: seq<Command>, k: nat)
    requires k < |cmds| && PieceOk(cmds[k].tokens)
    ensures Pipes(cmds[k].tokens) + 1 > MAX_STAGES ==> TooLong(Rejoined(cmds))
    ensures HasCrowd(cmds[k].tokens) ==> HasCrowd(Rejoined(cmds))
  {
    hide PieceOk, Pipes, Rejoined, Crowded;
    var a, b := PieceInside(cmds, k);
    var toks, tokens := Rejoined(cmds), cmds[k].tokens;
    if HasCrowd(tokens) {
      var x: nat, y: nat :| x <= y <= |tokens| && Crowded(tokens[x..y]);
      SliceOfSlice(toks, a, b, x, y);
    }
  }

  lemma {:induction false} NoneTooLong(cmds: seq<Command>)
    requires forall k: nat :: k < |cmds| ==> Pipes(cmds[k].tokens) + 1 <= MAX_STAGES && !HasCrowd(cmds[k].tokens)
    requires Cut(cmds, {Semi, Amp})
    ensures !TooLong(Rejoined(cmds)) && !HasCrowd(Rejoined(cmds))
  {
    hide Pipes, Rejoined, HasCrowd, TooLong;
    if TooLong(Rejoined(cmds)) { LongCommand(cmds); }
    if HasCrowd(Rejoined(cmds)) { CrowdedCommand(cmds); }
  }

  lemma {:induction false} LongCommand(cmds: seq<Command>)
    requires Cut(cmds, {Semi, Amp}) && TooLong(Rejoined(cmds))
    ensures exists k: nat :: k < |cmds| && Pipes(cmds[k].tokens) + 1 > MAX_STAGES
  {
    hide Count, Rejoined;
    var toks := Rejoined(cmds);
    var a: nat, b: nat :| a <= b <= |toks| && PieceOk(toks[a..b]) && Pipes(toks[a..b]) + 1 > MAX_STAGES;
    forall i: nat | a <= i < b ensures toks[i] !in {Semi, Amp} {
      assert toks[a..b][i - a] == toks[i];
      NoSeparators(toks[a..b], i - a);
    }
    var k, x, y := InsidePiece(cmds, {Semi, Amp}, a, b);
    CountPart(cmds[k].tokens, {Pipe}, x, y);
    assert Pipes(cmds[k].tokens) + 1 > MAX_STAGES;
  }

  lemma {:induction false} CrowdedCommand(cmds: seq<Command>)
    requires Cut(cmds, {Semi, Amp}) && HasCrowd(Rejoined(cmds))
    ensures exists k: nat :: k < |cmds| && HasCrowd(cmds[k].tokens)
  {
    hide Rejoined, HasCrowd, Crowded;
    var a, b := TheCrowd(Rejoined(cmds));
    var k := CrowdInside(cmds, Rejoined(cmds), a, b, {Semi, Amp});
  }

  lemma SliceOfSlice(toks: seq<Token>, a: nat, b: nat, x: nat, y: nat)
    requires a <= b <= |toks| && x <= y <= b - a
    ensures toks[a..b][x..y] == toks[a + x..a + y]
  {
    var part := toks[a..b];
    assert forall i: nat :: i < y - x ==> part[x..y][i] == part[x + i] == toks[a + x + i];
  }

  lemma {:induction false} TheCrowd(toks: seq<Token>) returns (a: nat, b: nat)
    requires HasCrowd(toks)
    ensures a <= b <= |toks| && Crowded(toks[a..b])
  {
    a, b :| a <= b <= |toks| && Crowded(toks[a..b]);
  }

  /** All commands but the last end in one of `ends`, and none in anything else. */
  predicate Cut(cmds: seq<Command>, ends: set<Token>) {
    && (forall k: nat :: k < |cmds| ==> cmds[k].end.None? || cmds[k].end.value in ends)
    && (forall k: nat :: k + 1 < |cmds| ==> cmds[k].end.Some?)
  }

  /** A stretch without any of `ends` lies in one command. */
  lemma {:induction false} InsidePiece(cmds: seq<Command>, ends: set<Token>, a: nat, b: nat)
    returns (k: nat, x: nat, y: nat)
    requires Cut(cmds, ends) && a < b <= |Rejoined(cmds)|
    requires forall i: nat :: a <= i < b ==> Rejoined(cmds)[i] !in ends
    ensures k < |cmds| && x <= y <= |cmds[k].tokens| && cmds[k].tokens[x..y] == Rejoined(cmds)[a..b]
  {
    hide Rejoined;
    LastRejoined(cmds);
    var toks, less, last := Rejoined(cmds), cmds[..|cmds| - 1], cmds[|cmds| - 1];
    var n := |Rejoined(less)|;
    if b <= n {
      assert toks[a..b] == Rejoined(less)[a..b];
      assert forall i: nat :: a <= i < b ==> Rejoined(less)[i] == toks[i];
      k, x, y := InsidePiece(less, ends, a, b);
    } else {
      EndsIn(less, ends);
      assert n > 0 ==> toks[n - 1] == Rejoined(less)[n - 1];
      assert a >= n;
      assert last.end.Some? ==> toks[n + |last.tokens|] == last.end.value;
      SliceBehind(Rejoined(less), Whole(last), a, b);
      SliceBefore(last.tokens, Whole(last), a - n, b - n);
      k, x, y := |cmds| - 1, a - n, b - n;
    }
  }

  lemma LastRejoined(cmds: seq<Command>)
    requires |Rejoined(cmds)| > 0
    ensures cmds != [] && Rejoined(cmds) == Rejoined(cmds[..|cmds| - 1]) + Whole(cmds[|cmds| - 1])
  {
  }

  lemma SliceBehind<T>(s: seq<T>, t: seq<T>, a: nat, b: nat)
    requires |s| <= a <= b <= |s| + |t|
    ensures (s + t)[a..b] == t[a - |s|..b - |s|]
  {
  }

  lemma SliceBefore<T>(s: seq<T>, t: seq<T>, a: nat, b: nat)
    requires a <= b <= |s| <= |t| && t[..|s|] == s
    ensures t[a..b] == s[a..b]
  {
    assert forall i: nat :: i < |s| ==> t[..|s|][i] == t[i];
  }

  lemma {:induction false} EndsIn(cmds: seq<Command>, ends: set<Token>)
    requires forall k: nat :: k < |cmds| ==> cmds[k].end.Some? && cmds[k].end.value in ends
    ensures Rejoined(cmds) != [] ==> Rejoined(cmds)[|Rejoined(cmds)| - 1] in ends
  {
  }

  /** The pipeline `a | a | ... | a` with `n` pipes. */
  function Chain(n: nat): seq<Token> { if n == 0 then [Word("a")] else Chain(n - 1) + [Pipe, Word("a")] }

  lemma {:induction false} ChainsAre(n: nat)
    ensures Accepted(Chain(n)) && PieceOk(Chain(n)) && Count(Chain(n), {Pipe}) == n
  {
    hide Accepted, PieceOk, StageOk, Count;
    if n == 0 {
      OneWord({Pipe});
    } else {
      ChainsAre(n - 1);
      OneMoreWord(Chain(n - 1), Pipe);
      CountTwo(Chain(n - 1), Pipe, {Pipe});
    }
  }

  /** A pipeline of 257 stages is accepted and then refused. */
  lemma LongChain(n: nat)
    requires n >= MAX_STAGES
    ensures Accepted(Chain(n)) && TooLong(Chain(n))
  {
    hide Accepted, PieceOk, Count, Chain;
    ChainsAre(n);
    assert Chain(n)[0..|Chain(n)|] == Chain(n);
  }

  lemma OneMoreWord(tokens: seq<Token>, op: Token)
    requires PieceOk(tokens) && (op == Pipe || op == Lt)
    ensures PieceOk(tokens + [op, Word("a")]) && Accepted(tokens + [op, Word("a")])
    ensures StageOk(tokens) && op == Lt ==> StageOk(tokens + [op, Word("a")])
  {
    var more := tokens + [op, Word("a")];
    assert forall i: nat :: i < |tokens| ==> more[i] == tokens[i];
    assert more[|tokens|] == op && more[|tokens| + 1] == Word("a");
  }

  lemma CountTwo(tokens: seq<Token>, op: Token, kinds: set<Token>)
    requires op in kinds && Word("a") !in kinds
    ensures Count(tokens + [op, Word("a")], kinds) == Count(tokens, kinds) + 1
  {
    var more := tokens + [op, Word("a")];
    CountMore(more, kinds, |tokens|);
    CountMore(more, kinds, |tokens| + 1);
    assert more[..|tokens|] == tokens && more[..|tokens| + 2] == more;
  }

  /** The command `a <a <a ... <a` with `n` inputs. */
  function Feeds(n: nat): seq<Token> { if n == 0 then [Word("a")] else Feeds(n - 1) + [Lt, Word("a")] }

  lemma {:induction false} FeedsAre(n: nat)
    ensures Accepted(Feeds(n)) && PieceOk(Feeds(n)) && StageOk(Feeds(n)) && Count(Feeds(n), {Lt}) == n
  {
    hide Accepted, PieceOk, StageOk, Count;
    if n == 0 {
      OneWord({Lt});
    } else {
      FeedsAre(n - 1);
      OneMoreWord(Feeds(n - 1), Lt);
      CountTwo(Feeds(n - 1), Lt, {Lt});
    }
  }

  lemma OneWord(kinds: set<Token>)
    requires Word("a") !in kinds
    ensures Accepted([Word("a")]) && PieceOk([Word("a")]) && StageOk([Word("a")]) && Count([Word("a")], kinds) == 0
  {
    assert [Word("a")][..0] == [];
  }

  /** A command with 257 inputs is accepted, and its scan overruns. */
  lemma LongFeeds(n: nat)
    requires n > MAX_FILES
    ensures Accepted(Feeds(n)) && HasCrowd(Feeds(n)) && Overruns(Feeds(n))
  {
    hide Inputs, Outputs, Args, RedirectionsOk, Accepted, PieceOk, StageOk, Count, Feeds;
    FeedsAre(n);
    assert Feeds(n)[0..|Feeds(n)|] == Feeds(n);
    StageScans(Feeds(n));
  }

  /** A command is a stretch of the line. */
  lemma {:induction false} PieceInside(cmds: seq<Command>, k: nat) returns (a: nat, b: nat)
    requires k < |cmds|
    ensures a <= b <= |Rejoined(cmds)| && Rejoined(cmds)[a..b] == cmds[k].tokens
  {
    var less, last := cmds[..|cmds| - 1], cmds[|cmds| - 1];
    if k < |cmds| - 1 {
      a, b := PieceInside(less, k);
      assert Rejoined(cmds)[a..b] == Rejoined(less)[a..b];
    } else {
      a, b := |Rejoined(less)|, |Rejoined(less)| + |last.tokens|;
    }
  }
}

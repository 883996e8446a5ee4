/** The tokens the shell's lexer, parser and executor share. */
module ShellTokens {
  datatype Token = Word(text: string) | Pipe | Lt | Gt | GtGt | Semi | Amp

  predicate IsOperator(t: Token) { !t.Word? }

  predicate IsSeparator(t: Token) { t.Semi? || t.Amp? }

  predicate IsRedirection(t: Token) { t.Lt? || t.Gt? || t.GtGt? }
}

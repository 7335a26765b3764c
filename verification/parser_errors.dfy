/** lang/parser/errors.go: errors raised while lexing and parsing. */
module SyntaxErrors {
  import opened Tok
  import opened TokenErrors

  const SyntaxErrorName: string := "SyntaxError"

  /** `NewSyntaxError`: the input name, position and message are stored unchanged. */
  function NewSyntaxError(inputName: string, pos: Pos, msg: string): (e: WentError)
    ensures InputName(e) == inputName && Message(e) == msg && e.pos == pos
    ensures NewPos(Position(e).0, Position(e).1) == pos
    ensures e.errorName == SyntaxErrorName
  {
    WentError(inputName, pos, msg, SyntaxErrorName)
  }

  /** `SyntaxError.Error`: the standard format under the "SyntaxError" tag. */
  lemma SyntaxErrorText(inputName: string, pos: Pos, msg: string)
    ensures var e := NewSyntaxError(inputName, pos, msg);
      (InputNamePos(e) == "" ==> ErrorString(e) == "[SyntaxError]: " + msg) &&
      (InputNamePos(e) != "" ==> ErrorString(e) == "[SyntaxError]:" + InputNamePos(e) + ": " + msg)
  {
  }
}

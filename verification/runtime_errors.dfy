/** lang/runtime/errors.go: errors raised while evaluating. */
module RuntimeErrors {
  import opened Tok
  import opened TokenErrors

  const RuntimeErrorName: string := "RuntimeError"

  /** `NewRuntimeError`: the input name, position and message are stored unchanged. */
  function NewRuntimeError(inputName: string, pos: Pos, msg: string): (e: WentError)
    ensures InputName(e) == inputName && Message(e) == msg && e.pos == pos
    ensures NewPos(Position(e).0, Position(e).1) == pos
    ensures e.errorName == RuntimeErrorName
  {
    WentError(inputName, pos, msg, RuntimeErrorName)
  }

  /** `RuntimeError.Error`: the standard format under the "RuntimeError" tag. */
  lemma RuntimeErrorText(inputName: string, pos: Pos, msg: string)
    ensures var e := NewRuntimeError(inputName, pos, msg);
      (InputNamePos(e) == "" ==> ErrorString(e) == "[RuntimeError]: " + msg) &&
      (InputNamePos(e) != "" ==> ErrorString(e) == "[RuntimeError]:" + InputNamePos(e) + ": " + msg)
  {
  }
}

/** The frames of a turn's event stream (relay/internal/ai/ai.go). */
module Frames {
  datatype Frame =
    | Token(turn: string, text: string)
    | Call(turn: string, callID: string, name: string, args: string)
    | Result(turn: string, callID: string, result: string, isError: bool)
    | Finished(turn: string, stop: string, tokensIn: int, tokensOut: int)
    | Err(turn: string, error: string)
  {
    predicate Terminal() { Finished? || Err? }
  }
}

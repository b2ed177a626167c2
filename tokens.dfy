/** The tokens the lexer produces and the parser reads (`tokens.rs`). */
module Tokens {

  datatype Token =
    | Identifier(name: string)
    | Number(value: nat)
    | Optimize
    | Colon
    | Semicolon
    | LeftParen
    | RightParen
    | NewLine
    | Time
    | Invalid(text: string)
}

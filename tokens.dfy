/** The token stream the statement parser reads. The lexer is not part of
    this model: its output is an input sequence of lexemes, each a token with
    its span and whether a line terminator precedes it (the fact automatic
    semicolon insertion needs). Reading past the last lexeme yields the end
    of the program, again and again. */
module Tokens {
  import opened Ast

  datatype Token =
    | EndOfProgram
    | Semicolon | Colon | Comma
    | ParenOpen | ParenClose | BracketOpen | BracketClose | BraceOpen | BraceClose
    | Operator(operator: OperatorKind)
    | Declaration(kind: DeclarationKind)
    | Break | Catch | Class | Do | Else | For | Function | If | Return | This | Throw | Try | While
    | Identifier(name: string)
    | Literal(value: LiteralValue)

  datatype Lexeme = Lexeme(token: Token, newlineBefore: bool, start: nat, end: nat)

  /** Offset of the end of input, where the end-of-program token sits. */
  function EndOffset(toks: seq<Lexeme>): nat {
    if |toks| == 0 then 0 else toks[|toks| - 1].end
  }

  /** The lexeme at the cursor (`peek`), or end of program past the input. */
  function Peek(toks: seq<Lexeme>, pos: nat): (lex: Lexeme)
    ensures pos >= |toks| ==> lex.token.EndOfProgram?
  {
    if pos < |toks| then toks[pos] else Lexeme(EndOfProgram, false, EndOffset(toks), EndOffset(toks))
  }

  /** The cursor after `next`/`consume`: one lexeme on, never past the end. */
  function Advance(toks: seq<Lexeme>, pos: nat): (next: nat)
    requires pos <= |toks|
    ensures next <= |toks|
    ensures !Peek(toks, pos).token.EndOfProgram? ==> next == pos + 1
  {
    if pos < |toks| then pos + 1 else pos
  }

  /** What `asi` reports about the statement end at the cursor. */
  datatype Asi = NoSemicolon | ImplicitSemicolon | ExplicitSemicolon

  /** Automatic semicolon insertion (ECMA-262, section 11.9.1 "Rules of
      Automatic Semicolon Insertion"): an explicit `;` ends the statement; so
      do, implicitly, a `}`, the end of the input, and a token preceded by a
      line terminator. */
  function AsiAt(toks: seq<Lexeme>, pos: nat): Asi {
    var lex := Peek(toks, pos);
    match lex.token
    case Semicolon => ExplicitSemicolon
    case BraceClose | EndOfProgram => ImplicitSemicolon
    case _ => if lex.newlineBefore then ImplicitSemicolon else NoSemicolon
  }
}

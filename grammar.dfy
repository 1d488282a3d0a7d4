/** The statement grammar of core/src/parser/statement.rs as pure functions
    over a token sequence and a cursor. Each function takes the cursor just
    after the tokens its source counterpart has already seen and returns the
    node it builds with the cursor after it, or the unexpected token that
    aborts the parse. The `Parser` class in parser.dfy runs the same steps in
    place and is proved to agree with these functions; the properties the
    source promises are proved about them in grammar_facts.dfy.

    Sub-parsers the file calls but does not define are given small
    stand-ins:
    - expressions: a primary (identifier, literal, `this`, or a
      parenthesised expression), optionally followed by one infix operator,
      `in` included, and a second primary;
    - object and array patterns, and parameter lists: comma-separated
      identifiers between the brackets;
    - `block_body`/`block_body_tail`: statements up to the closing brace;
    - `function`: a parameter list and a block body; `class`: an empty body. */
module Grammar {
  import opened Results
  import opened Ast
  import opened Tokens

  /** What aborts a parse: the `unexpected_token!` family of macros. */
  datatype ParseError = UnexpectedToken(at: Lexeme)

  /** A node and the cursor just after it. */
  datatype Parsed<+T> = Parsed(node: T, pos: nat)

  type PResult<T> = Result<Parsed<T>, ParseError>

  // ---------------------------------------------------------------------
  // Cursor steps: `expect!`, `expect_identifier!`, `expect_semicolon!`
  // ---------------------------------------------------------------------

  /** `expect!(self, t)`: the next token must be `t`. */
  function Expect(toks: seq<Lexeme>, pos: nat, t: Token): (r: PResult<Lexeme>)
    requires pos <= |toks|
    ensures r.Ok? ==> r.value.node.token == t && pos <= r.value.pos <= |toks|
    ensures r.Ok? && !t.EndOfProgram? ==> r.value.pos == pos + 1
  {
    var lex := Peek(toks, pos);
    if lex.token == t then Ok(Parsed(lex, Advance(toks, pos))) else Err(UnexpectedToken(lex))
  }

  /** `expect_identifier!`: the next token must be an identifier. */
  function ExpectIdentifier(toks: seq<Lexeme>, pos: nat): (r: PResult<Lexeme>)
    requires pos <= |toks|
    ensures r.Ok? ==> r.value.node.token.Identifier? && r.value.pos == pos + 1 <= |toks|
  {
    var lex := Peek(toks, pos);
    if lex.token.Identifier? then Ok(Parsed(lex, Advance(toks, pos))) else Err(UnexpectedToken(lex))
  }

  /** `expect_semicolon!`: an explicit `;` is consumed, an implicit one
      consumes nothing, anything else is unexpected. */
  function ExpectSemicolon(toks: seq<Lexeme>, pos: nat): (r: PResult<()>)
    requires pos <= |toks|
    ensures r.Ok? ==> pos <= r.value.pos <= |toks|
    ensures r.Ok? <==> AsiAt(toks, pos) != NoSemicolon
  {
    match AsiAt(toks, pos)
    case ExplicitSemicolon => Ok(Parsed((), Advance(toks, pos)))
    case ImplicitSemicolon => Ok(Parsed((), pos))
    case NoSemicolon => Err(UnexpectedToken(Peek(toks, pos)))
  }

  /** The identifier a lexeme carries, with its span (`alloc_in_loc`). */
  function NameOf(lex: Lexeme): Loc<string>
    requires lex.token.Identifier?
  {
    Loc(lex.start, lex.end, lex.token.name)
  }

  // ---------------------------------------------------------------------
  // Stand-in for the expression parser
  // ---------------------------------------------------------------------

  /** The operators the stand-in accepts between two primaries. */
  predicate IsInfix(op: OperatorKind) {
    !(op.Increment? || op.Decrement? || op.LogicalNot? || op.Typeof?)
  }

  /** A binary `in` expression, the shape a for-in head is recognised by. */
  predicate IsBinaryIn(e: Expression) {
    e.Binary? && e.binaryExpr.operator == In
  }

  /** A primary whose first token `first` has just been consumed. */
  function Primary(toks: seq<Lexeme>, pos: nat, first: Lexeme): (r: PResult<Loc<Expression>>)
    requires pos <= |toks|
    ensures r.Ok? ==> pos <= r.value.pos <= |toks|
    ensures first.token.EndOfProgram? ==> r.Err?
    decreases |toks| - pos + (if first.token.EndOfProgram? then 0 else 1), 0
  {
    match first.token
    case Identifier(name) => Ok(Parsed(Loc(first.start, first.end, Expression.Identifier(name)), pos))
    case Literal(value) => Ok(Parsed(Loc(first.start, first.end, Expression.Literal(value)), pos))
    case This => Ok(Parsed(Loc(first.start, first.end, Expression.This), pos))
    case ParenOpen =>
      var inner :- ExpressionAt(toks, pos);
      var close :- Expect(toks, inner.pos, ParenClose);
      Ok(Parsed(inner.node, close.pos))
    case _ => Err(UnexpectedToken(first))
  }

  /** `expression_from(token, 0)`: an expression whose first token has just
      been consumed. */
  function ExpressionFrom(toks: seq<Lexeme>, pos: nat, first: Lexeme): (r: PResult<Loc<Expression>>)
    requires pos <= |toks|
    ensures r.Ok? ==> pos <= r.value.pos <= |toks|
    ensures first.token.EndOfProgram? ==> r.Err?
    decreases |toks| - pos + (if first.token.EndOfProgram? then 0 else 1), 1
  {
    var left :- Primary(toks, pos, first);
    ExpressionRest(toks, left.pos, left.node)
  }

  /** `expression(0)`: an expression starting at the cursor. */
  function ExpressionAt(toks: seq<Lexeme>, pos: nat): (r: PResult<Loc<Expression>>)
    requires pos <= |toks|
    ensures r.Ok? ==> pos < r.value.pos <= |toks|
    decreases |toks| - pos, 2
  {
    ExpressionFrom(toks, Advance(toks, pos), Peek(toks, pos))
  }

  /** `complex_expression(left, 0)`: an optional infix operator and right
      operand after the operand `left`. */
  function ExpressionRest(toks: seq<Lexeme>, pos: nat, left: Loc<Expression>): (r: PResult<Loc<Expression>>)
    requires pos <= |toks|
    ensures r.Ok? ==> pos <= r.value.pos <= |toks|
    decreases |toks| - pos, 3
  {
    var lex := Peek(toks, pos);
    if lex.token.Operator? && IsInfix(lex.token.operator) then
      var p := Advance(toks, pos);
      var right :- Primary(toks, Advance(toks, p), Peek(toks, p));
      var binary := BinaryExpression(lex.token.operator, left, right.node);
      Ok(Parsed(Loc(left.start, right.node.end, Expression.Binary(binary)), right.pos))
    else
      Ok(Parsed(left, pos))
  }

  // ---------------------------------------------------------------------
  // Stand-ins for identifier lists (patterns and parameters)
  // ---------------------------------------------------------------------

  /** Comma-separated identifiers up to and including `close`. */
  function Names(toks: seq<Lexeme>, pos: nat, close: Token): (r: PResult<seq<Loc<string>>>)
    requires pos <= |toks|
    ensures r.Ok? ==> pos <= r.value.pos <= |toks|
  {
    if Peek(toks, pos).token == close then
      Ok(Parsed([], Advance(toks, pos)))
    else
      var first :- ExpectIdentifier(toks, pos);
      NamesRest(toks, first.pos, close, [NameOf(first.node)])
  }

  function NamesRest(toks: seq<Lexeme>, pos: nat, close: Token, acc: seq<Loc<string>>): (r: PResult<seq<Loc<string>>>)
    requires pos <= |toks|
    ensures r.Ok? ==> pos <= r.value.pos <= |toks|
    decreases |toks| - pos
  {
    if Peek(toks, pos).token == Comma then
      var next :- ExpectIdentifier(toks, Advance(toks, pos));
      NamesRest(toks, next.pos, close, acc + [NameOf(next.node)])
    else
      var closing :- Expect(toks, pos, close);
      Ok(Parsed(acc, closing.pos))
  }

  function Shorthands(names: seq<Loc<string>>): seq<Loc<ObjectMember>> {
    seq(|names|, i requires 0 <= i < |names| => Loc(names[i].start, names[i].end, Shorthand(names[i].item)))
  }

  function Identifiers(names: seq<Loc<string>>): seq<Loc<Expression>> {
    seq(|names|, i requires 0 <= i < |names| => Loc(names[i].start, names[i].end, Expression.Identifier(names[i].item)))
  }

  function Parameters(names: seq<Loc<string>>): seq<Parameter> {
    seq(|names|, i requires 0 <= i < |names| => Parameter(names[i], None))
  }

  // ---------------------------------------------------------------------
  // Declarations
  // ---------------------------------------------------------------------

  /** The name part of `variable_declarator`: an object pattern, an array
      pattern or an identifier. */
  function DeclaratorName(toks: seq<Lexeme>, pos: nat): (r: PResult<DeclaratorId>)
    requires pos <= |toks|
    ensures r.Ok? ==> pos < r.value.pos <= |toks|
  {
    var lex := Peek(toks, pos);
    var p := Advance(toks, pos);
    match lex.token
    case BraceOpen =>
      var names :- Names(toks, p, BraceClose);
      Ok(Parsed(Pattern(Loc(0, 0, Expression.Object(ObjectExpression(Shorthands(names.node))))), names.pos))
    case BracketOpen =>
      var names :- Names(toks, p, BracketClose);
      Ok(Parsed(Pattern(Loc(0, 0, Expression.Array(ArrayExpression(Identifiers(names.node))))), names.pos))
    case Identifier(name) => Ok(Parsed(DeclaratorId.Identifier(name), p))
    case _ => Err(UnexpectedToken(lex))
  }

  /** `variable_declarator`: a name, then an initializer when `=` follows. */
  function VariableDeclarator(toks: seq<Lexeme>, pos: nat): (r: PResult<Loc<Declarator>>)
    requires pos <= |toks|
    ensures r.Ok? ==> pos < r.value.pos <= |toks|
  {
    var name :- DeclaratorName(toks, pos);
    if Peek(toks, name.pos).token == Operator(Assign) then
      var value :- ExpressionAt(toks, Advance(toks, name.pos));
      Ok(Parsed(Loc(0, 0, Declarator(name.node, Some(value.node))), value.pos))
    else
      Ok(Parsed(Loc(0, 0, Declarator(name.node, None)), name.pos))
  }

  /** `variable_declarators`: one declarator, then one more after each `,`. */
  function VariableDeclarators(toks: seq<Lexeme>, pos: nat): (r: PResult<seq<Loc<Declarator>>>)
    requires pos <= |toks|
    ensures r.Ok? ==> pos < r.value.pos <= |toks|
  {
    var first :- VariableDeclarator(toks, pos);
    DeclaratorsRest(toks, first.pos, [first.node])
  }

  /** The loop of `variable_declarators`, with the declarators built so far. */
  function DeclaratorsRest(toks: seq<Lexeme>, pos: nat, acc: seq<Loc<Declarator>>): (r: PResult<seq<Loc<Declarator>>>)
    requires pos <= |toks|
    ensures r.Ok? ==> pos <= r.value.pos <= |toks|
    decreases |toks| - pos
  {
    if Peek(toks, pos).token == Comma then
      var next :- VariableDeclarator(toks, Advance(toks, pos));
      DeclaratorsRest(toks, next.pos, acc + [next.node])
    else
      Ok(Parsed(acc, pos))
  }

  /** `variable_declaration_statement`, after the declaration keyword. */
  function VariableDeclarationStatement(toks: seq<Lexeme>, pos: nat, kind: DeclarationKind): (r: PResult<Loc<Statement>>)
    requires pos <= |toks|
    ensures r.Ok? ==> pos < r.value.pos <= |toks|
  {
    var declarators :- VariableDeclarators(toks, pos);
    var semicolon :- ExpectSemicolon(toks, declarators.pos);
    Ok(Parsed(Loc(0, 0, Statement.Declaration(kind, declarators.node)), semicolon.pos))
  }

  // ---------------------------------------------------------------------
  // Statements without nested statements
  // ---------------------------------------------------------------------

  /** `expression_statement`: the statement takes its expression's span. */
  function ExpressionStatement(toks: seq<Lexeme>, pos: nat, first: Lexeme): (r: PResult<Loc<Statement>>)
    requires pos <= |toks|
    ensures r.Ok? ==> pos <= r.value.pos <= |toks|
    ensures first.token.EndOfProgram? ==> r.Err?
  {
    var expression :- ExpressionFrom(toks, pos, first);
    var semicolon :- ExpectSemicolon(toks, expression.pos);
    Ok(Parsed(Loc(expression.node.start, expression.node.end, Statement.Expression(expression.node)), semicolon.pos))
  }

  /** `return_statement`, after `return`. */
  function ReturnStatement(toks: seq<Lexeme>, pos: nat): (r: PResult<Loc<Statement>>)
    requires pos <= |toks|
    ensures r.Ok? ==> pos <= r.value.pos <= |toks|
  {
    match AsiAt(toks, pos)
    case NoSemicolon =>
      var value :- ExpressionAt(toks, pos);
      var semicolon :- ExpectSemicolon(toks, value.pos);
      Ok(Parsed(Loc(0, 0, Statement.Return(Some(value.node))), semicolon.pos))
    case ImplicitSemicolon => Ok(Parsed(Loc(0, 0, Statement.Return(None)), pos))
    case ExplicitSemicolon => Ok(Parsed(Loc(0, 0, Statement.Return(None)), Advance(toks, pos)))
  }

  /** `break_statement`, after `break`. */
  function BreakStatement(toks: seq<Lexeme>, pos: nat): (r: PResult<Loc<Statement>>)
    requires pos <= |toks|
    ensures r.Ok? ==> pos <= r.value.pos <= |toks|
  {
    match AsiAt(toks, pos)
    case ExplicitSemicolon => Ok(Parsed(Loc(0, 0, Statement.Break(None)), Advance(toks, pos)))
    case ImplicitSemicolon => Ok(Parsed(Loc(0, 0, Statement.Break(None)), pos))
    case NoSemicolon =>
      var name :- ExpectIdentifier(toks, pos);
      var semicolon :- ExpectSemicolon(toks, name.pos);
      var target := Loc(name.node.start, name.node.end, Expression.Identifier(name.node.token.name));
      Ok(Parsed(Loc(0, 0, Statement.Break(Some(target))), semicolon.pos))
  }

  /** `throw_statement`, after `throw`. */
  function ThrowStatement(toks: seq<Lexeme>, pos: nat): (r: PResult<Loc<Statement>>)
    requires pos <= |toks|
    ensures r.Ok? ==> pos < r.value.pos <= |toks|
  {
    var value :- ExpressionAt(toks, pos);
    var semicolon :- ExpectSemicolon(toks, value.pos);
    Ok(Parsed(Loc(0, 0, Statement.Throw(value.node)), semicolon.pos))
  }

  /** Stand-in for `class(name)`: an empty class body. */
  function ClassTail(toks: seq<Lexeme>, pos: nat, name: Loc<string>): (r: PResult<ClassNode>)
    requires pos <= |toks|
    ensures r.Ok? ==> pos < r.value.pos <= |toks|
  {
    var open :- Expect(toks, pos, BraceOpen);
    var close :- Expect(toks, open.pos, BraceClose);
    Ok(Parsed(ClassNode(Some(name), None, []), close.pos))
  }

  /** `class_statement`, after `class`: the name is required. */
  function ClassStatement(toks: seq<Lexeme>, pos: nat): (r: PResult<Loc<Statement>>)
    requires pos <= |toks|
    ensures r.Ok? ==> pos < r.value.pos <= |toks|
  {
    var name :- ExpectIdentifier(toks, pos);
    var cls :- ClassTail(toks, name.pos, NameOf(name.node));
    Ok(Parsed(Loc(0, 0, Statement.Class(cls.node)), cls.pos))
  }

  /** One optional clause of a for head (`test` before `;`, `update` before
      `)`): empty when the terminator comes first. */
  function ForClause(toks: seq<Lexeme>, pos: nat, terminator: Token): (r: PResult<Option<Loc<Expression>>>)
    requires pos <= |toks|
    ensures r.Ok? ==> pos <= r.value.pos <= |toks|
  {
    var first := Peek(toks, pos);
    var p := Advance(toks, pos);
    if first.token == terminator then
      Ok(Parsed(None, p))
    else
      var expression :- ExpressionFrom(toks, p, first);
      var end :- Expect(toks, expression.pos, terminator);
      Ok(Parsed(Some(expression.node), end.pos))
  }

  // ---------------------------------------------------------------------
  // Statements with nested statements
  //
  // Termination: every call either consumes a token first or moves to a
  // smaller second component; `ParseStatement` counts its leading token
  // unless it is the end of the program.
  // ---------------------------------------------------------------------

  /** `statement(token)`: dispatch on the leading token, already consumed. */
  function ParseStatement(toks: seq<Lexeme>, pos: nat, tok: Lexeme): (r: PResult<Loc<Statement>>)
    requires pos <= |toks|
    ensures r.Ok? ==> pos <= r.value.pos <= |toks|
    ensures tok.token.EndOfProgram? ==> r.Err?
    decreases |toks| - pos + (if tok.token.EndOfProgram? then 0 else 1), 3
  {
    match tok.token
    case Semicolon => Ok(Parsed(Loc(tok.start, tok.end, Statement.Empty), pos))
    case Identifier(_) => LabeledOrExpressionStatement(toks, pos, tok)
    case BraceOpen => BlockStatement(toks, pos)
    case Declaration(kind) => VariableDeclarationStatement(toks, pos, kind)
    case Return => ReturnStatement(toks, pos)
    case Break => BreakStatement(toks, pos)
    case Function => FunctionStatement(toks, pos)
    case Class => ClassStatement(toks, pos)
    case If => IfStatement(toks, pos)
    case While => WhileStatement(toks, pos)
    case Do => DoStatement(toks, pos)
    case For => ForStatement(toks, pos)
    case Throw => ThrowStatement(toks, pos)
    case Try => TryStatement(toks, pos)
    case _ => ExpressionStatement(toks, pos, tok)
  }

  /** `expect_statement`: consume the next token and parse the statement it
      leads. A statement always consumes at least that token. */
  function ExpectStatement(toks: seq<Lexeme>, pos: nat): (r: PResult<Loc<Statement>>)
    requires pos <= |toks|
    ensures r.Ok? ==> pos < r.value.pos <= |toks|
    decreases |toks| - pos, 4
  {
    ParseStatement(toks, Advance(toks, pos), Peek(toks, pos))
  }

  /** Stand-in for `block_body_tail`: statements up to the closing brace,
      which it consumes; `acc` holds the statements read so far. */
  function BlockBodyTail(toks: seq<Lexeme>, pos: nat, acc: seq<Loc<Statement>>): (r: PResult<seq<Loc<Statement>>>)
    requires pos <= |toks|
    ensures r.Ok? ==> pos < r.value.pos <= |toks|
    decreases |toks| - pos, 5
  {
    if Peek(toks, pos).token == BraceClose then
      Ok(Parsed(acc, Advance(toks, pos)))
    else
      var statement :- ExpectStatement(toks, pos);
      BlockBodyTail(toks, statement.pos, acc + [statement.node])
  }

  /** Stand-in for `block_body`: `{`, then the statements up to `}`. */
  function BlockBody(toks: seq<Lexeme>, pos: nat): (r: PResult<seq<Loc<Statement>>>)
    requires pos <= |toks|
    ensures r.Ok? ==> pos < r.value.pos <= |toks|
    decreases |toks| - pos + 1, 0
  {
    var open :- Expect(toks, pos, BraceOpen);
    BlockBodyTail(toks, open.pos, [])
  }

  /** `block_statement`, after `{`. */
  function BlockStatement(toks: seq<Lexeme>, pos: nat): (r: PResult<Loc<Statement>>)
    requires pos <= |toks|
    ensures r.Ok? ==> pos < r.value.pos <= |toks|
    decreases |toks| - pos + 1, 2
  {
    var body :- BlockBodyTail(toks, pos, []);
    Ok(Parsed(Loc(0, 0, Statement.Block(body.node)), body.pos))
  }

  /** `labeled_or_expression_statement`, after the identifier `ident`: a
      following `:` makes the next statement its labeled body; otherwise the
      identifier starts an expression statement placed at (0, 0). */
  function LabeledOrExpressionStatement(toks: seq<Lexeme>, pos: nat, ident: Lexeme): (r: PResult<Loc<Statement>>)
    requires pos <= |toks| && ident.token.Identifier?
    ensures r.Ok? ==> pos <= r.value.pos <= |toks|
    decreases |toks| - pos + 1, 2
  {
    if Peek(toks, pos).token == Colon then
      var body :- ExpectStatement(toks, Advance(toks, pos));
      Ok(Parsed(Loc(0, 0, Labeled(ident.token.name, body.node)), body.pos))
    else
      var first := Loc(ident.start, ident.end, Expression.Identifier(ident.token.name));
      var expression :- ExpressionRest(toks, pos, first);
      var semicolon :- ExpectSemicolon(toks, expression.pos);
      Ok(Parsed(Loc(0, 0, Statement.Expression(expression.node)), semicolon.pos))
  }

  /** Stand-in for `function(name)`: a parameter list and a block body. */
  function FunctionTail(toks: seq<Lexeme>, pos: nat, name: Loc<string>): (r: PResult<FunctionNode>)
    requires pos <= |toks|
    ensures r.Ok? ==> pos < r.value.pos <= |toks|
    decreases |toks| - pos + 1, 1
  {
    var open :- Expect(toks, pos, ParenOpen);
    var params :- Names(toks, open.pos, ParenClose);
    var body :- BlockBody(toks, params.pos);
    Ok(Parsed(FunctionNode(Some(name), Parameters(params.node), body.node), body.pos))
  }

  /** `function_statement`, after `function`: the name is required. */
  function FunctionStatement(toks: seq<Lexeme>, pos: nat): (r: PResult<Loc<Statement>>)
    requires pos <= |toks|
    ensures r.Ok? ==> pos < r.value.pos <= |toks|
    decreases |toks| - pos + 1, 2
  {
    var name :- ExpectIdentifier(toks, pos);
    var fn :- FunctionTail(toks, name.pos, NameOf(name.node));
    Ok(Parsed(Loc(0, 0, Statement.Function(fn.node)), fn.pos))
  }

  /** `try_statement`, after `try`: a block, `catch ( name )`, a block, and
      a statement end. */
  function TryStatement(toks: seq<Lexeme>, pos: nat): (r: PResult<Loc<Statement>>)
    requires pos <= |toks|
    ensures r.Ok? ==> pos < r.value.pos <= |toks|
    decreases |toks| - pos + 1, 2
  {
    var body :- BlockBody(toks, pos);
    var catchKeyword :- Expect(toks, body.pos, Catch);
    var open :- Expect(toks, catchKeyword.pos, ParenOpen);
    var error :- ExpectIdentifier(toks, open.pos);
    var close :- Expect(toks, error.pos, ParenClose);
    var handler :- BlockBody(toks, close.pos);
    var semicolon :- ExpectSemicolon(toks, handler.pos);
    var param := Loc(error.node.start, error.node.end, Expression.Identifier(error.node.token.name));
    Ok(Parsed(Loc(0, 0, Statement.Try(body.node, param, handler.node)), semicolon.pos))
  }

  /** `if_statement`, after `if`. */
  function IfStatement(toks: seq<Lexeme>, pos: nat): (r: PResult<Loc<Statement>>)
    requires pos <= |toks|
    ensures r.Ok? ==> pos < r.value.pos <= |toks|
    decreases |toks| - pos + 1, 2
  {
    var open :- Expect(toks, pos, ParenOpen);
    var test :- ExpressionAt(toks, open.pos);
    var close :- Expect(toks, test.pos, ParenClose);
    var consequent :- ExpectStatement(toks, close.pos);
    if Peek(toks, consequent.pos).token == Else then
      var alternate :- ExpectStatement(toks, Advance(toks, consequent.pos));
      Ok(Parsed(Loc(0, 0, Statement.If(test.node, consequent.node, Some(alternate.node))), alternate.pos))
    else
      Ok(Parsed(Loc(0, 0, Statement.If(test.node, consequent.node, None)), consequent.pos))
  }

  /** `while_statement`, after `while`. */
  function WhileStatement(toks: seq<Lexeme>, pos: nat): (r: PResult<Loc<Statement>>)
    requires pos <= |toks|
    ensures r.Ok? ==> pos < r.value.pos <= |toks|
    decreases |toks| - pos + 1, 2
  {
    var open :- Expect(toks, pos, ParenOpen);
    var test :- ExpressionAt(toks, open.pos);
    var close :- Expect(toks, test.pos, ParenClose);
    var body :- ExpectStatement(toks, close.pos);
    Ok(Parsed(Loc(0, 0, Statement.While(test.node, body.node)), body.pos))
  }

  /** `do_statement`, after `do`: body, `while`, test; no statement end is
      required after the test. */
  function DoStatement(toks: seq<Lexeme>, pos: nat): (r: PResult<Loc<Statement>>)
    requires pos <= |toks|
    ensures r.Ok? ==> pos < r.value.pos <= |toks|
    decreases |toks| - pos + 1, 2
  {
    var body :- ExpectStatement(toks, pos);
    var whileKeyword :- Expect(toks, body.pos, Token.While);
    var test :- ExpressionAt(toks, whileKeyword.pos);
    Ok(Parsed(Loc(0, 0, Statement.Do(body.node, test.node)), test.pos))
  }

  /** `for_statement`, after `for`. */
  function ForStatement(toks: seq<Lexeme>, pos: nat): (r: PResult<Loc<Statement>>)
    requires pos <= |toks|
    ensures r.Ok? ==> pos < r.value.pos <= |toks|
    decreases |toks| - pos + 1, 2
  {
    var open :- Expect(toks, pos, ParenOpen);
    var first := Peek(toks, open.pos);
    var p := Advance(toks, open.pos);
    match first.token
    case Semicolon => ForClauses(toks, p, None)
    case Declaration(kind) => ForDeclarationHead(toks, p, kind)
    case _ => ForExpressionHead(toks, p, first)
  }

  /** A for head that starts with a declaration: a single declarator whose
      initializer is an `in` expression makes it a for-in loop. */
  function ForDeclarationHead(toks: seq<Lexeme>, pos: nat, kind: DeclarationKind): (r: PResult<Loc<Statement>>)
    requires pos <= |toks|
    ensures r.Ok? ==> pos < r.value.pos <= |toks|
    decreases |toks| - pos + 1, 2
  {
    var declarators :- VariableDeclarators(toks, pos);
    var left := Loc(0, 0, Statement.Declaration(kind, declarators.node));
    var ds := declarators.node;
    if |ds| == 1 && ds[0].item.value.Some? && IsBinaryIn(ds[0].item.value.value.item) then
      ForInStatementFromParts(toks, declarators.pos, left, ds[0].item.value.value.item.binaryExpr.right)
    else
      ForInit(toks, declarators.pos, left)
  }

  /** A for head that starts with an expression, whose first token `first`
      has been consumed: an `in` expression makes it a for-in loop whose left
      side is the expression's left operand. */
  function ForExpressionHead(toks: seq<Lexeme>, pos: nat, first: Lexeme): (r: PResult<Loc<Statement>>)
    requires pos <= |toks|
    ensures r.Ok? ==> pos < r.value.pos <= |toks|
    decreases |toks| - pos + 1, 2
  {
    var expression :- ExpressionFrom(toks, pos, first);
    var e := expression.node.item;
    if IsBinaryIn(e) then
      ForInStatementFromParts(toks, expression.pos, Loc(0, 0, Statement.Expression(e.binaryExpr.left)), e.binaryExpr.right)
    else
      ForInit(toks, expression.pos, Loc(0, 0, Statement.Expression(expression.node)))
  }

  /** What may follow a for-loop initializer: `in`, the identifier `of`,
      or `;`. */
  function ForInit(toks: seq<Lexeme>, pos: nat, init: Loc<Statement>): (r: PResult<Loc<Statement>>)
    requires pos <= |toks|
    ensures r.Ok? ==> pos < r.value.pos <= |toks|
    decreases |toks| - pos + 1, 1
  {
    var lex := Peek(toks, pos);
    var p := Advance(toks, pos);
    match lex.token
    case Operator(In) => ForInStatement(toks, p, init)
    case Identifier(name) =>
      if name == "of" then ForOfStatement(toks, p, init) else Err(UnexpectedToken(lex))
    case Semicolon => ForClauses(toks, p, Some(init))
    case _ => Err(UnexpectedToken(lex))
  }

  /** The rest of a classic for head: test, update, `)` and the body. */
  function ForClauses(toks: seq<Lexeme>, pos: nat, init: Option<Loc<Statement>>): (r: PResult<Loc<Statement>>)
    requires pos <= |toks|
    ensures r.Ok? ==> pos < r.value.pos <= |toks|
    decreases |toks| - pos + 1, 1
  {
    var test :- ForClause(toks, pos, Semicolon);
    var update :- ForClause(toks, test.pos, ParenClose);
    var body :- ExpectStatement(toks, update.pos);
    Ok(Parsed(Loc(0, 0, Statement.For(init, test.node, update.node, body.node)), body.pos))
  }

  /** `for_in_statement_from_parts`: the head was `left in right`. */
  function ForInStatementFromParts(toks: seq<Lexeme>, pos: nat, left: Loc<Statement>, right: Loc<Expression>): (r: PResult<Loc<Statement>>)
    requires pos <= |toks|
    ensures r.Ok? ==> pos < r.value.pos <= |toks|
    decreases |toks| - pos + 1, 1
  {
    var close :- Expect(toks, pos, ParenClose);
    var body :- ExpectStatement(toks, close.pos);
    Ok(Parsed(Loc(0, 0, ForIn(left, right, body.node)), body.pos))
  }

  /** `for_in_statement`: after `left in`. */
  function ForInStatement(toks: seq<Lexeme>, pos: nat, left: Loc<Statement>): (r: PResult<Loc<Statement>>)
    requires pos <= |toks|
    ensures r.Ok? ==> pos < r.value.pos <= |toks|
    decreases |toks| - pos + 1, 1
  {
    var right :- ExpressionAt(toks, pos);
    var close :- Expect(toks, right.pos, ParenClose);
    var body :- ExpectStatement(toks, close.pos);
    Ok(Parsed(Loc(0, 0, ForIn(left, right.node, body.node)), body.pos))
  }

  /** `for_of_statement`: after `left of`. */
  function ForOfStatement(toks: seq<Lexeme>, pos: nat, left: Loc<Statement>): (r: PResult<Loc<Statement>>)
    requires pos <= |toks|
    ensures r.Ok? ==> pos < r.value.pos <= |toks|
    decreases |toks| - pos + 1, 1
  {
    var right :- ExpressionAt(toks, pos);
    var close :- Expect(toks, right.pos, ParenClose);
    var body :- ExpectStatement(toks, close.pos);
    Ok(Parsed(Loc(0, 0, ForOf(left, right.node, body.node)), body.pos))
  }
}

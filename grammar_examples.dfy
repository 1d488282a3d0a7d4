/** Source snippets from the statement parser's unit tests
    (core/src/parser/statement.rs), written as lexeme sequences, with the
    statement the grammar gives for each. Each proof walks the parse one
    grammar step at a time. */
module GrammarExamples {
  import opened Results
  import opened Ast
  import opened Tokens
  import opened Grammar

  /** A lexeme on the same line as the one before it. */
  function Lx(t: Token, start: nat, end: nat): Lexeme {
    Lexeme(t, false, start, end)
  }

  /** An identifier or literal lexeme that no operator follows is a whole
      expression, with the lexeme's span. */
  lemma PrimaryAlone(toks: seq<Lexeme>, pos: nat, e: Expression)
    requires pos < |toks|
    requires toks[pos].token.Identifier? || toks[pos].token.Literal?
    requires e == (if toks[pos].token.Identifier? then Expression.Identifier(toks[pos].token.name)
                   else Expression.Literal(toks[pos].token.value))
    requires !Peek(toks, pos + 1).token.Operator?
    ensures ExpressionAt(toks, pos) == Ok(Parsed(Loc(toks[pos].start, toks[pos].end, e), pos + 1))
  {
    var first := Loc(toks[pos].start, toks[pos].end, e);
    assert Primary(toks, pos + 1, toks[pos]) == Ok(Parsed(first, pos + 1));
    assert ExpressionRest(toks, pos + 1, first) == Ok(Parsed(first, pos + 1));
    assert ExpressionFrom(toks, pos + 1, toks[pos]) == Ok(Parsed(first, pos + 1));
  }

  /** `foo;`: an identifier and a semicolon make an expression statement
      placed at (0, 0). */
  lemma IdentifierStatement(toks: seq<Lexeme>, pos: nat)
    requires pos + 1 < |toks|
    requires toks[pos].token.Identifier? && toks[pos + 1].token == Semicolon
    ensures ExpectStatement(toks, pos) ==
      Ok(Parsed(Loc(0, 0, Statement.Expression(Loc(toks[pos].start, toks[pos].end, Expression.Identifier(toks[pos].token.name)))), pos + 2))
  {
    var id := Loc(toks[pos].start, toks[pos].end, Expression.Identifier(toks[pos].token.name));
    var statement := Loc(0, 0, Statement.Expression(id));
    assert ExpressionRest(toks, pos + 1, id) == Ok(Parsed(id, pos + 1));
    assert ExpectSemicolon(toks, pos + 1) == Ok(Parsed((), pos + 2));
    assert LabeledOrExpressionStatement(toks, pos + 1, toks[pos]) == Ok(Parsed(statement, pos + 2));
    assert ParseStatement(toks, pos + 1, toks[pos]) == Ok(Parsed(statement, pos + 2));
  }

  /** `var x, y, z = 42;`: three declarators in source order, only the last
      with an initializer. */
  lemma VarDeclarationExample(toks: seq<Lexeme>)
    requires toks == [Lx(Token.Declaration(Var), 0, 3), Lx(Token.Identifier("x"), 4, 5), Lx(Comma, 5, 6),
                      Lx(Token.Identifier("y"), 7, 8), Lx(Comma, 8, 9), Lx(Token.Identifier("z"), 10, 11),
                      Lx(Operator(Assign), 12, 13), Lx(Token.Literal(Number("42")), 14, 16), Lx(Semicolon, 16, 17)]
    ensures ExpectStatement(toks, 0) ==
      Ok(Parsed(Loc(0, 0, Statement.Declaration(Var, [
        Loc(0, 0, Declarator(DeclaratorId.Identifier("x"), None)),
        Loc(0, 0, Declarator(DeclaratorId.Identifier("y"), None)),
        Loc(0, 0, Declarator(DeclaratorId.Identifier("z"), Some(Loc(14, 16, Expression.Literal(Number("42"))))))])), 9))
  {
    var x := Loc(0, 0, Declarator(DeclaratorId.Identifier("x"), None));
    var y := Loc(0, 0, Declarator(DeclaratorId.Identifier("y"), None));
    var fortyTwo := Loc(14, 16, Expression.Literal(Number("42")));
    var z := Loc(0, 0, Declarator(DeclaratorId.Identifier("z"), Some(fortyTwo)));
    var declaration := Loc(0, 0, Statement.Declaration(Var, [x, y, z]));
    assert VariableDeclarator(toks, 1) == Ok(Parsed(x, 2)) by {
      assert DeclaratorName(toks, 1) == Ok(Parsed(DeclaratorId.Identifier("x"), 2));
    }
    assert VariableDeclarator(toks, 3) == Ok(Parsed(y, 4)) by {
      assert DeclaratorName(toks, 3) == Ok(Parsed(DeclaratorId.Identifier("y"), 4));
    }
    assert VariableDeclarator(toks, 5) == Ok(Parsed(z, 8)) by {
      assert DeclaratorName(toks, 5) == Ok(Parsed(DeclaratorId.Identifier("z"), 6));
      PrimaryAlone(toks, 7, Expression.Literal(Number("42")));
    }
    assert DeclaratorsRest(toks, 8, [x, y, z]) == Ok(Parsed([x, y, z], 8));
    assert [x, y] + [z] == [x, y, z];
    assert DeclaratorsRest(toks, 4, [x, y]) == Ok(Parsed([x, y, z], 8));
    assert [x] + [y] == [x, y];
    assert DeclaratorsRest(toks, 2, [x]) == Ok(Parsed([x, y, z], 8));
    assert VariableDeclarators(toks, 1) == Ok(Parsed([x, y, z], 8));
    assert ExpectSemicolon(toks, 8) == Ok(Parsed((), 9));
    assert VariableDeclarationStatement(toks, 1, Var) == Ok(Parsed(declaration, 9));
    assert ParseStatement(toks, 1, toks[0]) == Ok(Parsed(declaration, 9));
  }

  /** `if (true) foo; else { bar; }`: the alternate is the block after
      `else`. */
  lemma IfElseExample(toks: seq<Lexeme>)
    requires toks == [Lx(Token.If, 0, 2), Lx(ParenOpen, 3, 4), Lx(Token.Literal(True), 4, 8), Lx(ParenClose, 8, 9),
                      Lx(Token.Identifier("foo"), 10, 13), Lx(Semicolon, 13, 14), Lx(Else, 15, 19),
                      Lx(BraceOpen, 20, 21), Lx(Token.Identifier("bar"), 22, 25), Lx(Semicolon, 25, 26),
                      Lx(BraceClose, 27, 28)]
    ensures ExpectStatement(toks, 0) ==
      Ok(Parsed(Loc(0, 0, Statement.If(
        Loc(4, 8, Expression.Literal(True)),
        Loc(0, 0, Statement.Expression(Loc(10, 13, Expression.Identifier("foo")))),
        Some(Loc(0, 0, Statement.Block([Loc(0, 0, Statement.Expression(Loc(22, 25, Expression.Identifier("bar"))))]))))), 11))
  {
    var test := Loc(4, 8, Expression.Literal(True));
    var foo := Loc(0, 0, Statement.Expression(Loc(10, 13, Expression.Identifier("foo"))));
    var bar := Loc(0, 0, Statement.Expression(Loc(22, 25, Expression.Identifier("bar"))));
    var block := Loc(0, 0, Statement.Block([bar]));
    var ifElse := Loc(0, 0, Statement.If(test, foo, Some(block)));
    PrimaryAlone(toks, 2, Expression.Literal(True));
    IdentifierStatement(toks, 4);
    IdentifierStatement(toks, 8);
    assert BlockBodyTail(toks, 10, [bar]) == Ok(Parsed([bar], 11));
    assert [] + [bar] == [bar];
    assert BlockBodyTail(toks, 8, []) == Ok(Parsed([bar], 11));
    assert BlockStatement(toks, 8) == Ok(Parsed(block, 11));
    assert ParseStatement(toks, 8, toks[7]) == Ok(Parsed(block, 11));
    assert ExpectStatement(toks, 7) == Ok(Parsed(block, 11));
    assert IfStatement(toks, 1) == Ok(Parsed(ifElse, 11));
    assert ParseStatement(toks, 1, toks[0]) == Ok(Parsed(ifElse, 11));
  }

  /** `foobar: { true }`: a labeled block whose statement ends at the
      closing brace without a semicolon. */
  lemma LabeledBlockExample(toks: seq<Lexeme>)
    requires toks == [Lx(Token.Identifier("foobar"), 0, 6), Lx(Colon, 6, 7), Lx(BraceOpen, 8, 9),
                      Lx(Token.Literal(True), 10, 14), Lx(BraceClose, 15, 16)]
    ensures ExpectStatement(toks, 0) ==
      Ok(Parsed(Loc(0, 0, Labeled("foobar", Loc(0, 0, Statement.Block([
        Loc(10, 14, Statement.Expression(Loc(10, 14, Expression.Literal(True))))])))), 5))
  {
    var truth := Loc(10, 14, Expression.Literal(True));
    var statement := Loc(10, 14, Statement.Expression(truth));
    var block := Loc(0, 0, Statement.Block([statement]));
    var labeled := Loc(0, 0, Labeled("foobar", block));
    assert ExpressionFrom(toks, 4, toks[3]) == Ok(Parsed(truth, 4)) by {
      assert Primary(toks, 4, toks[3]) == Ok(Parsed(truth, 4));
      assert ExpressionRest(toks, 4, truth) == Ok(Parsed(truth, 4));
    }
    assert ExpectSemicolon(toks, 4) == Ok(Parsed((), 4));
    assert ExpressionStatement(toks, 4, toks[3]) == Ok(Parsed(statement, 4));
    assert ParseStatement(toks, 4, toks[3]) == Ok(Parsed(statement, 4));
    assert ExpectStatement(toks, 3) == Ok(Parsed(statement, 4));
    assert BlockBodyTail(toks, 4, [statement]) == Ok(Parsed([statement], 5));
    assert [] + [statement] == [statement];
    assert BlockBodyTail(toks, 3, []) == Ok(Parsed([statement], 5));
    assert BlockStatement(toks, 3) == Ok(Parsed(block, 5));
    assert ParseStatement(toks, 3, toks[2]) == Ok(Parsed(block, 5));
    assert ExpectStatement(toks, 2) == Ok(Parsed(block, 5));
    assert LabeledOrExpressionStatement(toks, 1, toks[0]) == Ok(Parsed(labeled, 5));
    assert ParseStatement(toks, 1, toks[0]) == Ok(Parsed(labeled, 5));
  }

  /** `break foo;` carries its label as an identifier expression. */
  lemma BreakLabelExample(toks: seq<Lexeme>)
    requires toks == [Lx(Token.Break, 0, 5), Lx(Token.Identifier("foo"), 6, 9), Lx(Semicolon, 9, 10)]
    ensures ExpectStatement(toks, 0) ==
      Ok(Parsed(Loc(0, 0, Statement.Break(Some(Loc(6, 9, Expression.Identifier("foo"))))), 3))
  {
    var broken := Loc(0, 0, Statement.Break(Some(Loc(6, 9, Expression.Identifier("foo")))));
    assert ExpectSemicolon(toks, 2) == Ok(Parsed((), 3));
    assert BreakStatement(toks, 1) == Ok(Parsed(broken, 3));
    assert ParseStatement(toks, 1, toks[0]) == Ok(Parsed(broken, 3));
  }

  /** `for (;;) {}`: no initializer, test or update. */
  lemma EmptyForExample(toks: seq<Lexeme>)
    requires toks == [Lx(Token.For, 0, 3), Lx(ParenOpen, 4, 5), Lx(Semicolon, 5, 6), Lx(Semicolon, 6, 7),
                      Lx(ParenClose, 7, 8), Lx(BraceOpen, 9, 10), Lx(BraceClose, 10, 11)]
    ensures ExpectStatement(toks, 0) ==
      Ok(Parsed(Loc(0, 0, Statement.For(None, None, None, Loc(0, 0, Statement.Block([])))), 7))
  {
    var block := Loc(0, 0, Statement.Block([]));
    var loop := Loc(0, 0, Statement.For(None, None, None, block));
    assert ForClause(toks, 3, Semicolon) == Ok(Parsed(None, 4));
    assert ForClause(toks, 4, ParenClose) == Ok(Parsed(None, 5));
    assert BlockBodyTail(toks, 6, []) == Ok(Parsed([], 7));
    assert BlockStatement(toks, 6) == Ok(Parsed(block, 7));
    assert ParseStatement(toks, 6, toks[5]) == Ok(Parsed(block, 7));
    assert ExpectStatement(toks, 5) == Ok(Parsed(block, 7));
    assert ForClauses(toks, 3, None) == Ok(Parsed(loop, 7));
    assert ForStatement(toks, 1) == Ok(Parsed(loop, 7));
    assert ParseStatement(toks, 1, toks[0]) == Ok(Parsed(loop, 7));
  }

  /** `while (true) foo;`: the test in parentheses, then the body. */
  lemma WhileExample(toks: seq<Lexeme>)
    requires toks == [Lx(Token.While, 0, 5), Lx(ParenOpen, 6, 7), Lx(Token.Literal(True), 7, 11), Lx(ParenClose, 11, 12),
                      Lx(Token.Identifier("foo"), 13, 16), Lx(Semicolon, 16, 17)]
    ensures ExpectStatement(toks, 0) ==
      Ok(Parsed(Loc(0, 0, Statement.While(
        Loc(7, 11, Expression.Literal(True)),
        Loc(0, 0, Statement.Expression(Loc(13, 16, Expression.Identifier("foo")))))), 6))
  {
    var loop := Loc(0, 0, Statement.While(
      Loc(7, 11, Expression.Literal(True)),
      Loc(0, 0, Statement.Expression(Loc(13, 16, Expression.Identifier("foo"))))));
    PrimaryAlone(toks, 2, Expression.Literal(True));
    IdentifierStatement(toks, 4);
    assert WhileStatement(toks, 1) == Ok(Parsed(loop, 6));
    assert ParseStatement(toks, 1, toks[0]) == Ok(Parsed(loop, 6));
  }

  /** `do foo; while (true)`: the body, then the parenthesised test, with
      nothing required after it. */
  lemma DoExample(toks: seq<Lexeme>)
    requires toks == [Lx(Token.Do, 0, 2), Lx(Token.Identifier("foo"), 3, 6), Lx(Semicolon, 6, 7),
                      Lx(Token.While, 8, 13), Lx(ParenOpen, 14, 15), Lx(Token.Literal(True), 15, 19),
                      Lx(ParenClose, 19, 20)]
    ensures ExpectStatement(toks, 0) ==
      Ok(Parsed(Loc(0, 0, Statement.Do(
        Loc(0, 0, Statement.Expression(Loc(3, 6, Expression.Identifier("foo")))),
        Loc(15, 19, Expression.Literal(True)))), 7))
  {
    var test := Loc(15, 19, Expression.Literal(True));
    var loop := Loc(0, 0, Statement.Do(Loc(0, 0, Statement.Expression(Loc(3, 6, Expression.Identifier("foo")))), test));
    IdentifierStatement(toks, 1);
    PrimaryAlone(toks, 5, Expression.Literal(True));
    assert Primary(toks, 5, toks[4]) == Ok(Parsed(test, 7));
    assert ExpressionRest(toks, 7, test) == Ok(Parsed(test, 7));
    assert ExpressionFrom(toks, 5, toks[4]) == Ok(Parsed(test, 7));
    assert ExpressionAt(toks, 4) == Ok(Parsed(test, 7));
    assert DoStatement(toks, 1) == Ok(Parsed(loop, 7));
    assert ParseStatement(toks, 1, toks[0]) == Ok(Parsed(loop, 7));
  }

  /** `throw '3'`: a string literal thrown, the statement ended by the end
      of input. */
  lemma ThrowExample(toks: seq<Lexeme>)
    requires toks == [Lx(Token.Throw, 0, 5), Lx(Token.Literal(String("'3'")), 6, 9)]
    ensures ExpectStatement(toks, 0) ==
      Ok(Parsed(Loc(0, 0, Statement.Throw(Loc(6, 9, Expression.Literal(String("'3'"))))), 2))
  {
    var thrown := Loc(0, 0, Statement.Throw(Loc(6, 9, Expression.Literal(String("'3'")))));
    PrimaryAlone(toks, 1, Expression.Literal(String("'3'")));
    assert ExpectSemicolon(toks, 2) == Ok(Parsed((), 2));
    assert ThrowStatement(toks, 1) == Ok(Parsed(thrown, 2));
    assert ParseStatement(toks, 1, toks[0]) == Ok(Parsed(thrown, 2));
  }

  /** `try {} catch (err) {}`: two empty blocks and the parameter `err` as
      an identifier expression. */
  lemma TryEmptyExample(toks: seq<Lexeme>)
    requires toks == [Lx(Token.Try, 0, 3), Lx(BraceOpen, 4, 5), Lx(BraceClose, 5, 6), Lx(Catch, 7, 12),
                      Lx(ParenOpen, 13, 14), Lx(Token.Identifier("err"), 14, 17), Lx(ParenClose, 17, 18),
                      Lx(BraceOpen, 19, 20), Lx(BraceClose, 20, 21)]
    ensures ExpectStatement(toks, 0) ==
      Ok(Parsed(Loc(0, 0, Statement.Try([], Loc(14, 17, Expression.Identifier("err")), [])), 9))
  {
    var attempt := Loc(0, 0, Statement.Try([], Loc(14, 17, Expression.Identifier("err")), []));
    assert BlockBodyTail(toks, 2, []) == Ok(Parsed([], 3));
    assert BlockBody(toks, 1) == Ok(Parsed([], 3));
    assert BlockBodyTail(toks, 8, []) == Ok(Parsed([], 9));
    assert BlockBody(toks, 7) == Ok(Parsed([], 9));
    assert ExpectSemicolon(toks, 9) == Ok(Parsed((), 9));
    assert TryStatement(toks, 1) == Ok(Parsed(attempt, 9));
    assert ParseStatement(toks, 1, toks[0]) == Ok(Parsed(attempt, 9));
  }

  /** `{ name; }`: a block body holding one expression statement. */
  lemma SingleStatementBlock(toks: seq<Lexeme>, pos: nat)
    requires pos + 3 < |toks|
    requires toks[pos].token == BraceOpen && toks[pos + 1].token.Identifier?
    requires toks[pos + 2].token == Semicolon && toks[pos + 3].token == BraceClose
    ensures BlockBody(toks, pos) ==
      Ok(Parsed([Loc(0, 0, Statement.Expression(Loc(toks[pos + 1].start, toks[pos + 1].end,
                                                    Expression.Identifier(toks[pos + 1].token.name))))], pos + 4))
  {
    var statement := Loc(0, 0, Statement.Expression(Loc(toks[pos + 1].start, toks[pos + 1].end,
                                                        Expression.Identifier(toks[pos + 1].token.name))));
    IdentifierStatement(toks, pos + 1);
    assert [] + [statement] == [statement];
    assert BlockBodyTail(toks, pos + 3, [statement]) == Ok(Parsed([statement], pos + 4));
    assert BlockBodyTail(toks, pos + 1, []) == Ok(Parsed([statement], pos + 4));
  }

  /** `try { foo; } catch (err) { bar; }`: each block holds its one
      expression statement. */
  lemma TryExample(toks: seq<Lexeme>)
    requires toks == [Lx(Token.Try, 0, 3), Lx(BraceOpen, 4, 5), Lx(Token.Identifier("foo"), 6, 9), Lx(Semicolon, 9, 10),
                      Lx(BraceClose, 11, 12), Lx(Catch, 13, 18), Lx(ParenOpen, 19, 20),
                      Lx(Token.Identifier("err"), 20, 23), Lx(ParenClose, 23, 24), Lx(BraceOpen, 25, 26),
                      Lx(Token.Identifier("bar"), 27, 30), Lx(Semicolon, 30, 31), Lx(BraceClose, 32, 33)]
    ensures ExpectStatement(toks, 0) ==
      Ok(Parsed(Loc(0, 0, Statement.Try(
        [Loc(0, 0, Statement.Expression(Loc(6, 9, Expression.Identifier("foo"))))],
        Loc(20, 23, Expression.Identifier("err")),
        [Loc(0, 0, Statement.Expression(Loc(27, 30, Expression.Identifier("bar"))))])), 13))
  {
    var foo := Loc(0, 0, Statement.Expression(Loc(6, 9, Expression.Identifier("foo"))));
    var bar := Loc(0, 0, Statement.Expression(Loc(27, 30, Expression.Identifier("bar"))));
    var attempt := Loc(0, 0, Statement.Try([foo], Loc(20, 23, Expression.Identifier("err")), [bar]));
    SingleStatementBlock(toks, 1);
    SingleStatementBlock(toks, 9);
    assert ExpectSemicolon(toks, 13) == Ok(Parsed((), 13));
    assert TryStatement(toks, 1) == Ok(Parsed(attempt, 13));
    assert ParseStatement(toks, 1, toks[0]) == Ok(Parsed(attempt, 13));
  }

  /** `function foo() {}`: no parameters and an empty body. */
  lemma FunctionExample(toks: seq<Lexeme>)
    requires toks == [Lx(Token.Function, 0, 8), Lx(Token.Identifier("foo"), 9, 12), Lx(ParenOpen, 12, 13),
                      Lx(ParenClose, 13, 14), Lx(BraceOpen, 15, 16), Lx(BraceClose, 16, 17)]
    ensures ExpectStatement(toks, 0) ==
      Ok(Parsed(Loc(0, 0, Statement.Function(FunctionNode(Some(Loc(9, 12, "foo")), [], []))), 6))
  {
    var fn := FunctionNode(Some(Loc(9, 12, "foo")), [], []);
    assert Names(toks, 3, ParenClose) == Ok(Parsed([], 4));
    assert Parameters([]) == [];
    assert BlockBodyTail(toks, 5, []) == Ok(Parsed([], 6));
    assert BlockBody(toks, 4) == Ok(Parsed([], 6));
    assert FunctionTail(toks, 2, Loc(9, 12, "foo")) == Ok(Parsed(fn, 6));
    assert FunctionStatement(toks, 1) == Ok(Parsed(Loc(0, 0, Statement.Function(fn)), 6));
    assert ParseStatement(toks, 1, toks[0]) == Ok(Parsed(Loc(0, 0, Statement.Function(fn)), 6));
  }

  /** `class Foo {}`: no superclass and no members. */
  lemma ClassExample(toks: seq<Lexeme>)
    requires toks == [Lx(Token.Class, 0, 5), Lx(Token.Identifier("Foo"), 6, 9), Lx(BraceOpen, 10, 11),
                      Lx(BraceClose, 11, 12)]
    ensures ExpectStatement(toks, 0) ==
      Ok(Parsed(Loc(0, 0, Statement.Class(ClassNode(Some(Loc(6, 9, "Foo")), None, []))), 4))
  {
    var cls := ClassNode(Some(Loc(6, 9, "Foo")), None, []);
    assert ClassTail(toks, 2, Loc(6, 9, "Foo")) == Ok(Parsed(cls, 4));
    assert ClassStatement(toks, 1) == Ok(Parsed(Loc(0, 0, Statement.Class(cls)), 4));
    assert ParseStatement(toks, 1, toks[0]) == Ok(Parsed(Loc(0, 0, Statement.Class(cls)), 4));
  }

  /** `function() {}` and `class {}` fail at the token where the name
      should be. */
  lemma NamelessExamples(toks1: seq<Lexeme>, toks2: seq<Lexeme>)
    requires toks1 == [Lx(Token.Function, 0, 8), Lx(ParenOpen, 8, 9), Lx(ParenClose, 9, 10),
                       Lx(BraceOpen, 11, 12), Lx(BraceClose, 12, 13)]
    requires toks2 == [Lx(Token.Class, 0, 5), Lx(BraceOpen, 6, 7), Lx(BraceClose, 7, 8)]
    ensures ExpectStatement(toks1, 0) == Err(UnexpectedToken(Lx(ParenOpen, 8, 9)))
    ensures ExpectStatement(toks2, 0) == Err(UnexpectedToken(Lx(BraceOpen, 6, 7)))
  {
    assert ParseStatement(toks1, 1, toks1[0]) == FunctionStatement(toks1, 1);
    assert ParseStatement(toks2, 1, toks2[0]) == ClassStatement(toks2, 1);
  }
}

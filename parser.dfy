/** The statement parser of core/src/parser/statement.rs as the source runs
    it: a parser object whose cursor advances through the lexer's output as
    each method consumes tokens. Every method is proved to agree with the
    grammar function of the same name (grammar.dfy): it returns the node that
    function describes and leaves the cursor where that function does, or
    fails with the same unexpected token.

    The first error ends a parse; a failing method's cursor is not
    specified, since nothing reads it afterwards. */
module Parsing {
  import opened Results
  import opened Ast
  import opened Tokens
  import opened Grammar

  /** `r` and the cursor `pos` are what `spec` describes. */
  ghost predicate Agrees<T>(r: Result<T, ParseError>, pos: nat, spec: PResult<T>) {
    match spec
    case Ok(p) => r == Ok(p.node) && pos == p.pos
    case Err(e) => r == Err(e)
  }

  class Parser {
    /** The lexer's output. */
    const tokens: seq<Lexeme>
    /** The index of the lexeme `peek` would return. */
    var pos: nat

    ghost predicate Valid()
      reads this
    {
      pos <= |tokens|
    }

    constructor (tokens: seq<Lexeme>)
      ensures Valid()
      ensures this.tokens == tokens && pos == 0
    {
      this.tokens := tokens;
      pos := 0;
    }

    /** `next`: the lexeme at the cursor, consumed. */
    method Next() returns (lex: Lexeme)
      requires Valid()
      modifies this
      ensures Valid()
      ensures lex == Peek(tokens, old(pos)) && pos == Advance(tokens, old(pos))
    {
      lex := Peek(tokens, pos);
      pos := Advance(tokens, pos);
    }

    /** `consume`: drop the lexeme at the cursor. */
    method Consume()
      requires Valid()
      modifies this
      ensures Valid()
      ensures pos == Advance(tokens, old(pos))
    {
      pos := Advance(tokens, pos);
    }

    /** Runs a sub-parser this model describes only by its grammar function
        (the expression parser and its relatives), moving the cursor as
        that function does. */
    method Take<T>(outcome: PResult<T>) returns (r: Result<T, ParseError>)
      requires Valid()
      requires outcome.Ok? ==> outcome.value.pos <= |tokens|
      modifies this
      ensures Valid()
      ensures Agrees(r, pos, outcome)
    {
      match outcome {
        case Ok(p) =>
          pos := p.pos;
          r := Ok(p.node);
        case Err(e) =>
          r := Err(e);
      }
    }

    // -------------------------------------------------------------------
    // The cursor macros
    // -------------------------------------------------------------------

    /** `expect!(self, t)`. */
    method Expect(t: Token) returns (r: Result<Lexeme, ParseError>)
      requires Valid()
      modifies this
      ensures Valid()
      ensures Agrees(r, pos, Grammar.Expect(tokens, old(pos), t))
    {
      var lex := Next();
      if lex.token == t {
        r := Ok(lex);
      } else {
        r := Err(UnexpectedToken(lex));
      }
    }

    /** `expect_identifier!(self)`. */
    method ExpectIdentifier() returns (r: Result<Lexeme, ParseError>)
      requires Valid()
      modifies this
      ensures Valid()
      ensures Agrees(r, pos, Grammar.ExpectIdentifier(tokens, old(pos)))
    {
      var lex := Next();
      if lex.token.Identifier? {
        r := Ok(lex);
      } else {
        r := Err(UnexpectedToken(lex));
      }
    }

    /** `expect_semicolon!(self)`. */
    method ExpectSemicolon() returns (r: Result<(), ParseError>)
      requires Valid()
      modifies this
      ensures Valid()
      ensures Agrees(r, pos, Grammar.ExpectSemicolon(tokens, old(pos)))
    {
      match AsiAt(tokens, pos) {
        case ExplicitSemicolon =>
          Consume();
          r := Ok(());
        case ImplicitSemicolon =>
          r := Ok(());
        case NoSemicolon =>
          r := Err(UnexpectedToken(Peek(tokens, pos)));
      }
    }

    // -------------------------------------------------------------------
    // Statements without nested statements
    // -------------------------------------------------------------------

    /** `expression_statement(token)`. */
    method ExpressionStatement(first: Lexeme) returns (r: Result<Loc<Statement>, ParseError>)
      requires Valid()
      modifies this
      ensures Valid()
      ensures Agrees(r, pos, Grammar.ExpressionStatement(tokens, old(pos), first))
    {
      var expression :- Take(Grammar.ExpressionFrom(tokens, pos, first));
      var semicolon :- ExpectSemicolon();
      r := Ok(Loc(expression.start, expression.end, Statement.Expression(expression)));
    }

    /** `return_statement`. */
    method ReturnStatement() returns (r: Result<Loc<Statement>, ParseError>)
      requires Valid()
      modifies this
      ensures Valid()
      ensures Agrees(r, pos, Grammar.ReturnStatement(tokens, old(pos)))
    {
      match AsiAt(tokens, pos) {
        case NoSemicolon =>
          var value :- Take(Grammar.ExpressionAt(tokens, pos));
          var semicolon :- ExpectSemicolon();
          r := Ok(Loc(0, 0, Statement.Return(Some(value))));
        case ImplicitSemicolon =>
          r := Ok(Loc(0, 0, Statement.Return(None)));
        case ExplicitSemicolon =>
          Consume();
          r := Ok(Loc(0, 0, Statement.Return(None)));
      }
    }

    /** `break_statement`. */
    method BreakStatement() returns (r: Result<Loc<Statement>, ParseError>)
      requires Valid()
      modifies this
      ensures Valid()
      ensures Agrees(r, pos, Grammar.BreakStatement(tokens, old(pos)))
    {
      match AsiAt(tokens, pos) {
        case ExplicitSemicolon =>
          Consume();
          r := Ok(Loc(0, 0, Statement.Break(None)));
        case ImplicitSemicolon =>
          r := Ok(Loc(0, 0, Statement.Break(None)));
        case NoSemicolon =>
          var name :- ExpectIdentifier();
          var semicolon :- ExpectSemicolon();
          var target := Loc(name.start, name.end, Expression.Identifier(name.token.name));
          r := Ok(Loc(0, 0, Statement.Break(Some(target))));
      }
    }

    /** `throw_statement`. */
    method ThrowStatement() returns (r: Result<Loc<Statement>, ParseError>)
      requires Valid()
      modifies this
      ensures Valid()
      ensures Agrees(r, pos, Grammar.ThrowStatement(tokens, old(pos)))
    {
      var value :- Take(Grammar.ExpressionAt(tokens, pos));
      var semicolon :- ExpectSemicolon();
      r := Ok(Loc(0, 0, Statement.Throw(value)));
    }

    /** Stand-in for `class(name)`. */
    method ClassTail(name: Loc<string>) returns (r: Result<ClassNode, ParseError>)
      requires Valid()
      modifies this
      ensures Valid()
      ensures Agrees(r, pos, Grammar.ClassTail(tokens, old(pos), name))
    {
      var open :- Expect(BraceOpen);
      var close :- Expect(BraceClose);
      r := Ok(ClassNode(Some(name), None, []));
    }

    /** `class_statement`. */
    method ClassStatement() returns (r: Result<Loc<Statement>, ParseError>)
      requires Valid()
      modifies this
      ensures Valid()
      ensures Agrees(r, pos, Grammar.ClassStatement(tokens, old(pos)))
    {
      var name :- ExpectIdentifier();
      var cls :- ClassTail(NameOf(name));
      r := Ok(Loc(0, 0, Statement.Class(cls)));
    }

    // -------------------------------------------------------------------
    // Declarations
    // -------------------------------------------------------------------

    /** `variable_declarator`. */
    method VariableDeclarator() returns (r: Result<Loc<Declarator>, ParseError>)
      requires Valid()
      modifies this
      ensures Valid()
      ensures Agrees(r, pos, Grammar.VariableDeclarator(tokens, old(pos)))
    {
      var lex := Next();
      var name: DeclaratorId;
      match lex.token {
        case BraceOpen =>
          var names :- Take(Names(tokens, pos, BraceClose));
          name := Pattern(Loc(0, 0, Expression.Object(ObjectExpression(Shorthands(names)))));
        case BracketOpen =>
          var names :- Take(Names(tokens, pos, BracketClose));
          name := Pattern(Loc(0, 0, Expression.Array(ArrayExpression(Identifiers(names)))));
        case Identifier(n) =>
          name := DeclaratorId.Identifier(n);
        case _ =>
          return Err(UnexpectedToken(lex));
      }
      if Peek(tokens, pos).token == Operator(Assign) {
        Consume();
        var value :- Take(Grammar.ExpressionAt(tokens, pos));
        r := Ok(Loc(0, 0, Declarator(name, Some(value))));
      } else {
        r := Ok(Loc(0, 0, Declarator(name, None)));
      }
    }

    /** `variable_declarators`: a declarator, then another after each `,`. */
    method VariableDeclarators() returns (r: Result<seq<Loc<Declarator>>, ParseError>)
      requires Valid()
      modifies this
      ensures Valid()
      ensures Agrees(r, pos, Grammar.VariableDeclarators(tokens, old(pos)))
    {
      var first :- VariableDeclarator();
      var declarators := [first];
      while Peek(tokens, pos).token == Comma
        invariant Valid()
        invariant Grammar.VariableDeclarators(tokens, old(pos)) == DeclaratorsRest(tokens, pos, declarators)
        decreases |tokens| - pos
      {
        Consume();
        var next :- VariableDeclarator();
        declarators := declarators + [next];
      }
      r := Ok(declarators);
    }

    /** `variable_declaration_statement(kind)`. */
    method VariableDeclarationStatement(kind: DeclarationKind) returns (r: Result<Loc<Statement>, ParseError>)
      requires Valid()
      modifies this
      ensures Valid()
      ensures Agrees(r, pos, Grammar.VariableDeclarationStatement(tokens, old(pos), kind))
    {
      var declarators :- VariableDeclarators();
      var semicolon :- ExpectSemicolon();
      r := Ok(Loc(0, 0, Statement.Declaration(kind, declarators)));
    }

    /** One optional clause of a for head, up to `terminator`. */
    method ForClause(terminator: Token) returns (r: Result<Option<Loc<Expression>>, ParseError>)
      requires Valid()
      modifies this
      ensures Valid()
      ensures Agrees(r, pos, Grammar.ForClause(tokens, old(pos), terminator))
    {
      var first := Next();
      if first.token == terminator {
        r := Ok(None);
      } else {
        var expression :- Take(Grammar.ExpressionFrom(tokens, pos, first));
        var end :- Expect(terminator);
        r := Ok(Some(expression));
      }
    }

    // -------------------------------------------------------------------
    // Statements with nested statements; each `decreases` is the one of
    // the grammar function it agrees with.
    // -------------------------------------------------------------------

    /** `statement(token)`. */
    method ParseStatement(tok: Lexeme) returns (r: Result<Loc<Statement>, ParseError>)
      requires Valid()
      modifies this
      ensures Valid()
      ensures Agrees(r, pos, Grammar.ParseStatement(tokens, old(pos), tok))
      decreases |tokens| - pos + (if tok.token.EndOfProgram? then 0 else 1), 3
    {
      match tok.token {
        case Semicolon => r := Ok(Loc(tok.start, tok.end, Statement.Empty));
        case Identifier(_) => r := LabeledOrExpressionStatement(tok);
        case BraceOpen => r := BlockStatement();
        case Declaration(kind) => r := VariableDeclarationStatement(kind);
        case Return => r := ReturnStatement();
        case Break => r := BreakStatement();
        case Function => r := FunctionStatement();
        case Class => r := ClassStatement();
        case If => r := IfStatement();
        case While => r := WhileStatement();
        case Do => r := DoStatement();
        case For => r := ForStatement();
        case Throw => r := ThrowStatement();
        case Try => r := TryStatement();
        case _ => r := ExpressionStatement(tok);
      }
    }

    /** `expect_statement`. */
    method ExpectStatement() returns (r: Result<Loc<Statement>, ParseError>)
      requires Valid()
      modifies this
      ensures Valid()
      ensures Agrees(r, pos, Grammar.ExpectStatement(tokens, old(pos)))
      decreases |tokens| - pos, 4
    {
      var tok := Next();
      r := ParseStatement(tok);
    }

    /** Stand-in for `block_body_tail`: statements up to `}`. */
    method BlockBodyTail() returns (r: Result<seq<Loc<Statement>>, ParseError>)
      requires Valid()
      modifies this
      ensures Valid()
      ensures Agrees(r, pos, Grammar.BlockBodyTail(tokens, old(pos), []))
      decreases |tokens| - pos, 5
    {
      var statements := [];
      while Peek(tokens, pos).token != BraceClose
        invariant Valid() && old(pos) <= pos
        invariant Grammar.BlockBodyTail(tokens, old(pos), []) == Grammar.BlockBodyTail(tokens, pos, statements)
        decreases |tokens| - pos
      {
        var statement :- ExpectStatement();
        statements := statements + [statement];
      }
      Consume();
      r := Ok(statements);
    }

    /** Stand-in for `block_body`. */
    method BlockBody() returns (r: Result<seq<Loc<Statement>>, ParseError>)
      requires Valid()
      modifies this
      ensures Valid()
      ensures Agrees(r, pos, Grammar.BlockBody(tokens, old(pos)))
      decreases |tokens| - pos + 1, 0
    {
      var open :- Expect(BraceOpen);
      r := BlockBodyTail();
    }

    /** `block_statement`. */
    method BlockStatement() returns (r: Result<Loc<Statement>, ParseError>)
      requires Valid()
      modifies this
      ensures Valid()
      ensures Agrees(r, pos, Grammar.BlockStatement(tokens, old(pos)))
      decreases |tokens| - pos + 1, 2
    {
      var body :- BlockBodyTail();
      r := Ok(Loc(0, 0, Statement.Block(body)));
    }

    /** `labeled_or_expression_statement(label)`. */
    method LabeledOrExpressionStatement(ident: Lexeme) returns (r: Result<Loc<Statement>, ParseError>)
      requires Valid() && ident.token.Identifier?
      modifies this
      ensures Valid()
      ensures Agrees(r, pos, Grammar.LabeledOrExpressionStatement(tokens, old(pos), ident))
      decreases |tokens| - pos + 1, 2
    {
      if Peek(tokens, pos).token == Colon {
        Consume();
        var body :- ExpectStatement();
        r := Ok(Loc(0, 0, Labeled(ident.token.name, body)));
      } else {
        var first := Loc(ident.start, ident.end, Expression.Identifier(ident.token.name));
        var expression :- Take(ExpressionRest(tokens, pos, first));
        var semicolon :- ExpectSemicolon();
        r := Ok(Loc(0, 0, Statement.Expression(expression)));
      }
    }

    /** Stand-in for `function(name)`. */
    method FunctionTail(name: Loc<string>) returns (r: Result<FunctionNode, ParseError>)
      requires Valid()
      modifies this
      ensures Valid()
      ensures Agrees(r, pos, Grammar.FunctionTail(tokens, old(pos), name))
      decreases |tokens| - pos + 1, 1
    {
      var open :- Expect(ParenOpen);
      var params :- Take(Names(tokens, pos, ParenClose));
      var body :- BlockBody();
      r := Ok(FunctionNode(Some(name), Parameters(params), body));
    }

    /** `function_statement`. */
    method FunctionStatement() returns (r: Result<Loc<Statement>, ParseError>)
      requires Valid()
      modifies this
      ensures Valid()
      ensures Agrees(r, pos, Grammar.FunctionStatement(tokens, old(pos)))
      decreases |tokens| - pos + 1, 2
    {
      var name :- ExpectIdentifier();
      var fn :- FunctionTail(NameOf(name));
      r := Ok(Loc(0, 0, Statement.Function(fn)));
    }

    /** `try_statement`. */
    method TryStatement() returns (r: Result<Loc<Statement>, ParseError>)
      requires Valid()
      modifies this
      ensures Valid()
      ensures Agrees(r, pos, Grammar.TryStatement(tokens, old(pos)))
      decreases |tokens| - pos + 1, 2
    {
      var body :- BlockBody();
      var catchKeyword :- Expect(Catch);
      var open :- Expect(ParenOpen);
      var error :- ExpectIdentifier();
      var close :- Expect(ParenClose);
      var handler :- BlockBody();
      var semicolon :- ExpectSemicolon();
      var param := Loc(error.start, error.end, Expression.Identifier(error.token.name));
      r := Ok(Loc(0, 0, Statement.Try(body, param, handler)));
    }

    /** `if_statement`. */
    method IfStatement() returns (r: Result<Loc<Statement>, ParseError>)
      requires Valid()
      modifies this
      ensures Valid()
      ensures Agrees(r, pos, Grammar.IfStatement(tokens, old(pos)))
      decreases |tokens| - pos + 1, 2
    {
      var open :- Expect(ParenOpen);
      var test :- Take(ExpressionAt(tokens, pos));
      var close :- Expect(ParenClose);
      var consequent :- ExpectStatement();
      if Peek(tokens, pos).token == Else {
        Consume();
        var alternate :- ExpectStatement();
        r := Ok(Loc(0, 0, Statement.If(test, consequent, Some(alternate))));
      } else {
        r := Ok(Loc(0, 0, Statement.If(test, consequent, None)));
      }
    }

    /** `while_statement`. */
    method WhileStatement() returns (r: Result<Loc<Statement>, ParseError>)
      requires Valid()
      modifies this
      ensures Valid()
      ensures Agrees(r, pos, Grammar.WhileStatement(tokens, old(pos)))
      decreases |tokens| - pos + 1, 2
    {
      var open :- Expect(ParenOpen);
      var test :- Take(ExpressionAt(tokens, pos));
      var close :- Expect(ParenClose);
      var body :- ExpectStatement();
      r := Ok(Loc(0, 0, Statement.While(test, body)));
    }

    /** `do_statement`. */
    method DoStatement() returns (r: Result<Loc<Statement>, ParseError>)
      requires Valid()
      modifies this
      ensures Valid()
      ensures Agrees(r, pos, Grammar.DoStatement(tokens, old(pos)))
      decreases |tokens| - pos + 1, 2
    {
      var body :- ExpectStatement();
      var whileKeyword :- Expect(Token.While);
      var test :- Take(ExpressionAt(tokens, pos));
      r := Ok(Loc(0, 0, Statement.Do(body, test)));
    }

    /** `for_statement`: the head is read by the three methods below. */
    method ForStatement() returns (r: Result<Loc<Statement>, ParseError>)
      requires Valid()
      modifies this
      ensures Valid()
      ensures Agrees(r, pos, Grammar.ForStatement(tokens, old(pos)))
      decreases |tokens| - pos + 1, 2
    {
      var open :- Expect(ParenOpen);
      var first := Next();
      match first.token {
        case Semicolon => r := ForClauses(None);
        case Declaration(kind) => r := ForDeclarationHead(kind);
        case _ => r := ForExpressionHead(first);
      }
    }

    method ForDeclarationHead(kind: DeclarationKind) returns (r: Result<Loc<Statement>, ParseError>)
      requires Valid()
      modifies this
      ensures Valid()
      ensures Agrees(r, pos, Grammar.ForDeclarationHead(tokens, old(pos), kind))
      decreases |tokens| - pos + 1, 2
    {
      var declarators :- VariableDeclarators();
      var left := Loc(0, 0, Statement.Declaration(kind, declarators));
      if |declarators| == 1 && declarators[0].item.value.Some? && IsBinaryIn(declarators[0].item.value.value.item) {
        r := ForInStatementFromParts(left, declarators[0].item.value.value.item.binaryExpr.right);
      } else {
        r := ForInit(left);
      }
    }

    method ForExpressionHead(first: Lexeme) returns (r: Result<Loc<Statement>, ParseError>)
      requires Valid()
      modifies this
      ensures Valid()
      ensures Agrees(r, pos, Grammar.ForExpressionHead(tokens, old(pos), first))
      decreases |tokens| - pos + 1, 2
    {
      var expression :- Take(ExpressionFrom(tokens, pos, first));
      var e := expression.item;
      if IsBinaryIn(e) {
        r := ForInStatementFromParts(Loc(0, 0, Statement.Expression(e.binaryExpr.left)), e.binaryExpr.right);
      } else {
        r := ForInit(Loc(0, 0, Statement.Expression(expression)));
      }
    }

    /** After a for-loop initializer: `in`, `of` or `;`. */
    method ForInit(init: Loc<Statement>) returns (r: Result<Loc<Statement>, ParseError>)
      requires Valid()
      modifies this
      ensures Valid()
      ensures Agrees(r, pos, Grammar.ForInit(tokens, old(pos), init))
      decreases |tokens| - pos + 1, 1
    {
      var lex := Next();
      match lex.token {
        case Operator(In) => r := ForInStatement(init);
        case Identifier(name) =>
          if name == "of" {
            r := ForOfStatement(init);
          } else {
            r := Err(UnexpectedToken(lex));
          }
        case Semicolon => r := ForClauses(Some(init));
        case _ => r := Err(UnexpectedToken(lex));
      }
    }

    /** Test, update and body of a classic for loop. */
    method ForClauses(init: Option<Loc<Statement>>) returns (r: Result<Loc<Statement>, ParseError>)
      requires Valid()
      modifies this
      ensures Valid()
      ensures Agrees(r, pos, Grammar.ForClauses(tokens, old(pos), init))
      decreases |tokens| - pos + 1, 1
    {
      var test :- ForClause(Semicolon);
      var update :- ForClause(ParenClose);
      var body :- ExpectStatement();
      r := Ok(Loc(0, 0, Statement.For(init, test, update, body)));
    }

    /** `for_in_statement_from_parts(left, right)`. */
    method ForInStatementFromParts(left: Loc<Statement>, right: Loc<Expression>) returns (r: Result<Loc<Statement>, ParseError>)
      requires Valid()
      modifies this
      ensures Valid()
      ensures Agrees(r, pos, Grammar.ForInStatementFromParts(tokens, old(pos), left, right))
      decreases |tokens| - pos + 1, 1
    {
      var close :- Expect(ParenClose);
      var body :- ExpectStatement();
      r := Ok(Loc(0, 0, ForIn(left, right, body)));
    }

    /** `for_in_statement(left)`. */
    method ForInStatement(left: Loc<Statement>) returns (r: Result<Loc<Statement>, ParseError>)
      requires Valid()
      modifies this
      ensures Valid()
      ensures Agrees(r, pos, Grammar.ForInStatement(tokens, old(pos), left))
      decreases |tokens| - pos + 1, 1
    {
      var right :- Take(ExpressionAt(tokens, pos));
      var close :- Expect(ParenClose);
      var body :- ExpectStatement();
      r := Ok(Loc(0, 0, ForIn(left, right, body)));
    }

    /** `for_of_statement(left)`. */
    method ForOfStatement(left: Loc<Statement>) returns (r: Result<Loc<Statement>, ParseError>)
      requires Valid()
      modifies this
      ensures Valid()
      ensures Agrees(r, pos, Grammar.ForOfStatement(tokens, old(pos), left))
      decreases |tokens| - pos + 1, 1
    {
      var right :- Take(ExpressionAt(tokens, pos));
      var close :- Expect(ParenClose);
      var body :- ExpectStatement();
      r := Ok(Loc(0, 0, ForOf(left, right, body)));
    }
  }
}

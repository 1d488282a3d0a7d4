/** What the statement grammar promises, stated over the grammar functions
    of grammar.dfy (and so, through the agreement proofs of parser.dfy, over
    the parser's methods). */
module GrammarFacts {
  import opened Results
  import opened Ast
  import opened Tokens
  import opened Grammar

  // ---------------------------------------------------------------------
  // Dispatch
  // ---------------------------------------------------------------------

  /** The statement kinds a leading token can produce, written as a table
      independently of `ParseStatement`. */
  predicate Leads(t: Token, s: Statement) {
    match t
    case Semicolon => s.Empty?
    case Identifier(name) => (s.Labeled? && s.name == name) || s.Expression?
    case BraceOpen => s.Block?
    case Declaration(kind) => s.Declaration? && s.kind == kind
    case Return => s.Return?
    case Break => s.Break?
    case Function => s.Function? && s.fn.name.Some?
    case Class => s.Class? && s.cls.name.Some?
    case If => s.If?
    case While => s.While?
    case Do => s.Do?
    case For => s.For? || s.ForIn? || s.ForOf?
    case Throw => s.Throw?
    case Try => s.Try?
    case _ => s.Expression?
  }

  /** Whatever follows a for-loop initializer, the result is a loop. */
  lemma ForInitKinds(toks: seq<Lexeme>, pos: nat, init: Loc<Statement>)
    requires pos <= |toks|
    ensures var r := ForInit(toks, pos, init);
      r.Ok? ==> r.value.node.item.For? || r.value.node.item.ForIn? || r.value.node.item.ForOf?
  {
    ForInitFollowers(toks, pos, init);
  }

  /** Every for statement parses to one of the three loop kinds. */
  lemma ForKinds(toks: seq<Lexeme>, pos: nat)
    requires pos <= |toks|
    ensures var r := ForStatement(toks, pos);
      r.Ok? ==> r.value.node.item.For? || r.value.node.item.ForIn? || r.value.node.item.ForOf?
  {
    var open := Expect(toks, pos, ParenOpen);
    if open.Ok? {
      var first := Peek(toks, open.value.pos);
      var p := Advance(toks, open.value.pos);
      if first.token.Declaration? {
      var kind := first.token.kind;
      assert ForStatement(toks, pos) == ForDeclarationHead(toks, p, kind);
      var declarators := VariableDeclarators(toks, p);
      if declarators.Ok? {
        var ds := declarators.value.node;
        var left := Loc(0, 0, Statement.Declaration(kind, ds));
        if |ds| == 1 && ds[0].item.value.Some? && IsBinaryIn(ds[0].item.value.value.item) {
          var r := ForInStatementFromParts(toks, declarators.value.pos, left, ds[0].item.value.value.item.binaryExpr.right);
          assert r.Ok? ==> r.value.node.item.ForIn?;
        } else {
          ForInitKinds(toks, declarators.value.pos, left);
        }
      }
      } else if !first.token.Semicolon? {
      assert ForStatement(toks, pos) == ForExpressionHead(toks, p, first);
      var expression := ExpressionFrom(toks, p, first);
      if expression.Ok? {
        var e := expression.value.node.item;
        if IsBinaryIn(e) {
          var r := ForInStatementFromParts(toks, expression.value.pos, Loc(0, 0, Statement.Expression(e.binaryExpr.left)), e.binaryExpr.right);
          assert r.Ok? ==> r.value.node.item.ForIn?;
        } else {
          ForInitKinds(toks, expression.value.pos, Loc(0, 0, Statement.Expression(expression.value.node)));
        }
      }
      }
    }
  }

  /** The leading token alone decides which kind of statement results; `;`
      is an empty statement at that token's span that consumes nothing
      more, and the end of the program is never a statement. */
  lemma DispatchByLeadingToken(toks: seq<Lexeme>, pos: nat, tok: Lexeme)
    requires pos <= |toks|
    ensures var r := ParseStatement(toks, pos, tok);
      r.Ok? ==> Leads(tok.token, r.value.node.item)
    ensures tok.token == Semicolon ==>
      ParseStatement(toks, pos, tok) == Ok(Parsed(Loc(tok.start, tok.end, Statement.Empty), pos))
    ensures tok.token == EndOfProgram ==> ParseStatement(toks, pos, tok).Err?
  {
    match tok.token {
      case For => ForKinds(toks, pos);
      case Function => FunctionNeedsName(toks, pos);
      case Class => ClassNeedsName(toks, pos);
      case _ =>
    }
  }

  // ---------------------------------------------------------------------
  // Labeled and expression statements
  // ---------------------------------------------------------------------

  /** The operand an expression starts with: binary nodes nest to the left. */
  function LeftmostOperand(e: Loc<Expression>): Loc<Expression>
    decreases e
  {
    if e.item.Binary? then LeftmostOperand(e.item.binaryExpr.left) else e
  }

  /** An identifier followed by `:` labels the next full statement; any
      other identifier is the first operand of an expression statement. */
  lemma LabeledOrExpression(toks: seq<Lexeme>, pos: nat, ident: Lexeme)
    requires pos <= |toks| && ident.token.Identifier?
    ensures var r := LabeledOrExpressionStatement(toks, pos, ident);
      Peek(toks, pos).token == Colon ==>
        (r.Ok? <==> ExpectStatement(toks, pos + 1).Ok?) &&
        (r.Ok? ==> r.value.node.item == Labeled(ident.token.name, ExpectStatement(toks, pos + 1).value.node) &&
                   r.value.pos == ExpectStatement(toks, pos + 1).value.pos)
    ensures var r := LabeledOrExpressionStatement(toks, pos, ident);
      Peek(toks, pos).token != Colon && r.Ok? ==>
        r.value.node.item.Expression? &&
        LeftmostOperand(r.value.node.item.expression) == Loc(ident.start, ident.end, Expression.Identifier(ident.token.name))
  {
  }

  /** An expression statement spans exactly its expression, and ends where
      a statement may end. */
  lemma ExpressionStatementSpan(toks: seq<Lexeme>, pos: nat, first: Lexeme)
    requires pos <= |toks|
    ensures var r := ExpressionStatement(toks, pos, first);
      r.Ok? ==>
        var s := r.value.node;
        s.item.Expression? && s.start == s.item.expression.start && s.end == s.item.expression.end &&
        ExpressionFrom(toks, pos, first).Ok? && s.item.expression == ExpressionFrom(toks, pos, first).value.node &&
        AsiAt(toks, ExpressionFrom(toks, pos, first).value.pos) != NoSemicolon
  {
  }

  // ---------------------------------------------------------------------
  // Automatic semicolon insertion after `return` and `break`
  // ---------------------------------------------------------------------

  /** `return` takes no value when a statement may end right after it (an
      explicit `;` is consumed, an implicit one is not); otherwise it takes
      the expression that follows. */
  lemma ReturnAsi(toks: seq<Lexeme>, pos: nat)
    requires pos <= |toks|
    ensures AsiAt(toks, pos) == ExplicitSemicolon ==>
      ReturnStatement(toks, pos) == Ok(Parsed(Loc(0, 0, Statement.Return(None)), pos + 1))
    ensures AsiAt(toks, pos) == ImplicitSemicolon ==>
      ReturnStatement(toks, pos) == Ok(Parsed(Loc(0, 0, Statement.Return(None)), pos))
    ensures AsiAt(toks, pos) == NoSemicolon ==>
      var r := ReturnStatement(toks, pos);
      (r.Ok? ==> r.value.node.item.value == Some(ExpressionAt(toks, pos).value.node)) &&
      (ExpressionAt(toks, pos).Err? ==> r.Err?)
  {
  }

  /** `break` takes no label when a statement may end right after it;
      otherwise the next token must be the label, an identifier. */
  lemma BreakAsi(toks: seq<Lexeme>, pos: nat)
    requires pos <= |toks|
    ensures AsiAt(toks, pos) == ExplicitSemicolon ==>
      BreakStatement(toks, pos) == Ok(Parsed(Loc(0, 0, Statement.Break(None)), pos + 1))
    ensures AsiAt(toks, pos) == ImplicitSemicolon ==>
      BreakStatement(toks, pos) == Ok(Parsed(Loc(0, 0, Statement.Break(None)), pos))
    ensures AsiAt(toks, pos) == NoSemicolon ==>
      var t := Peek(toks, pos);
      var r := BreakStatement(toks, pos);
      (!t.token.Identifier? ==> r == Err(UnexpectedToken(t))) &&
      (r.Ok? ==> t.token.Identifier? &&
                 r.value.node.item.target == Some(Loc(t.start, t.end, Expression.Identifier(t.token.name))))
  {
  }

  // ---------------------------------------------------------------------
  // Declarations
  // ---------------------------------------------------------------------

  /** A declarator name starts with `{`, `[` or an identifier, and anything
      else is an unexpected token; the declarator has an initializer
      exactly when `=` follows its name. */
  lemma DeclaratorShape(toks: seq<Lexeme>, pos: nat)
    requires pos <= |toks|
    ensures var t := Peek(toks, pos).token;
      !(t.BraceOpen? || t.BracketOpen? || t.Identifier?) ==>
        VariableDeclarator(toks, pos) == Err(UnexpectedToken(Peek(toks, pos)))
    ensures var t := Peek(toks, pos).token;
      var r := VariableDeclarator(toks, pos);
      t.Identifier? && r.Ok? ==> r.value.node.item.name == DeclaratorId.Identifier(t.name)
    ensures var r := VariableDeclarator(toks, pos);
      var n := DeclaratorName(toks, pos);
      r.Ok? ==>
        n.Ok? && r.value.node.item.name == n.value.node &&
        (r.value.node.item.value.Some? <==> Peek(toks, n.value.pos).token == Operator(Assign))
  {
  }

  /** The declarators after the first, read one after another from `pos`:
      each is preceded by a comma, and the list ends at `end`, where no
      comma follows. An independent description of the declarator loop. */
  ghost predicate DeclaratorsFollow(toks: seq<Lexeme>, pos: nat, ds: seq<Loc<Declarator>>, end: nat)
    requires pos <= |toks|
    decreases |ds|
  {
    if ds == [] then
      end == pos && Peek(toks, pos).token != Comma
    else
      Peek(toks, pos).token == Comma &&
      var d := VariableDeclarator(toks, pos + 1);
      d.Ok? && d.value.node == ds[0] && DeclaratorsFollow(toks, d.value.pos, ds[1..], end)
  }

  /** The declarator loop only ever appends to what it has read. */
  lemma {:induction false} DeclaratorsRestExtends(toks: seq<Lexeme>, pos: nat, acc: seq<Loc<Declarator>>)
    requires pos <= |toks|
    ensures var r := DeclaratorsRest(toks, pos, acc);
      r.Ok? ==> acc <= r.value.node
    decreases |toks| - pos
  {
    if Peek(toks, pos).token == Comma {
      var next := VariableDeclarator(toks, Advance(toks, pos));
      if next.Ok? {
        DeclaratorsRestExtends(toks, next.value.pos, acc + [next.value.node]);
      }
    }
  }

  /** The declarator loop reads exactly the comma-separated declarators that
      follow, in source order, after those it has read. */
  lemma {:induction false} DeclaratorsRestMeaning(toks: seq<Lexeme>, pos: nat, acc: seq<Loc<Declarator>>,
                                                  ds: seq<Loc<Declarator>>, end: nat)
    requires pos <= |toks|
    ensures DeclaratorsRest(toks, pos, acc) == Ok(Parsed(acc + ds, end)) <==> DeclaratorsFollow(toks, pos, ds, end)
    decreases |toks| - pos
  {
    if Peek(toks, pos).token == Comma {
      var next := VariableDeclarator(toks, pos + 1);
      if next.Ok? {
        var acc' := acc + [next.value.node];
        var rest := DeclaratorsRest(toks, next.value.pos, acc');
        DeclaratorsRestExtends(toks, next.value.pos, acc');
        if ds != [] && ds[0] == next.value.node {
          assert acc + ds == acc' + ds[1..];
          DeclaratorsRestMeaning(toks, next.value.pos, acc', ds[1..], end);
        } else if rest.Ok? {
          // The loop's result extends `acc'`, which `acc + ds` does not.
          if ds == [] {
            assert |rest.value.node| > |acc + ds|;
          } else {
            assert rest.value.node[|acc|] != (acc + ds)[|acc|];
          }
        }
      }
    } else if ds != [] {
      assert |acc + ds| > |acc|;
    } else {
      assert acc + ds == acc;
    }
  }

  /** A declaration's declarator list is never empty; it is the first
      declarator followed by the comma-separated ones after it, in source
      order. */
  lemma DeclaratorList(toks: seq<Lexeme>, pos: nat, ds: seq<Loc<Declarator>>, end: nat)
    requires pos <= |toks|
    ensures VariableDeclarators(toks, pos).Ok? ==> |VariableDeclarators(toks, pos).value.node| >= 1
    ensures VariableDeclarators(toks, pos) == Ok(Parsed(ds, end)) <==>
      |ds| >= 1 &&
      var first := VariableDeclarator(toks, pos);
      first.Ok? && first.value.node == ds[0] && DeclaratorsFollow(toks, first.value.pos, ds[1..], end)
  {
    var first := VariableDeclarator(toks, pos);
    if first.Ok? {
      DeclaratorsRestExtends(toks, first.value.pos, [first.value.node]);
      if |ds| >= 1 {
        assert [first.value.node] + ds[1..] == [first.value.node] + ds[1..];
        DeclaratorsRestMeaning(toks, first.value.pos, [first.value.node], ds[1..], end);
        if ds[0] == first.value.node {
          assert [first.value.node] + ds[1..] == ds;
        }
      }
    }
  }

  // ---------------------------------------------------------------------
  // If / else
  // ---------------------------------------------------------------------

  /** An `if` has an alternate exactly when `else` follows its consequent:
      without one, no `else` is left after it; with one, the alternate is
      the statement after an `else` token inside the `if`. */
  lemma IfElse(toks: seq<Lexeme>, pos: nat)
    requires pos <= |toks|
    ensures var r := IfStatement(toks, pos);
      r.Ok? ==> r.value.node.item.If?
    ensures var r := IfStatement(toks, pos);
      r.Ok? && r.value.node.item.alternate.None? ==> Peek(toks, r.value.pos).token != Else
    ensures var r := IfStatement(toks, pos);
      r.Ok? && r.value.node.item.alternate.Some? ==>
        exists q :: pos < q < r.value.pos && Peek(toks, q).token == Else &&
          ExpectStatement(toks, q + 1) == Ok(Parsed(r.value.node.item.alternate.value, r.value.pos))
  {
    var r := IfStatement(toks, pos);
    if r.Ok? && r.value.node.item.alternate.Some? {
      var open := Expect(toks, pos, ParenOpen).value;
      var test := ExpressionAt(toks, open.pos).value;
      var close := Expect(toks, test.pos, ParenClose).value;
      var consequent := ExpectStatement(toks, close.pos).value;
      var q := consequent.pos;
      assert Peek(toks, q).token == Else;
      assert ExpectStatement(toks, q + 1) == Ok(Parsed(r.value.node.item.alternate.value, r.value.pos));
    }
  }

  // ---------------------------------------------------------------------
  // While, do-while, throw and try (the cursor is just after the keyword)
  // ---------------------------------------------------------------------

  /** A while loop is a parenthesised test and then its body statement;
      without the `(` the parse fails at that token. */
  lemma WhileShape(toks: seq<Lexeme>, pos: nat)
    requires pos <= |toks|
    ensures Peek(toks, pos).token != ParenOpen ==>
      WhileStatement(toks, pos) == Err(UnexpectedToken(Peek(toks, pos)))
    ensures var r := WhileStatement(toks, pos);
      r.Ok? ==>
        Peek(toks, pos).token == ParenOpen &&
        var test := ExpressionAt(toks, pos + 1);
        test.Ok? && Peek(toks, test.value.pos).token == ParenClose &&
        var body := ExpectStatement(toks, test.value.pos + 1);
        body.Ok? &&
        r.value == Parsed(Loc(0, 0, Statement.While(test.value.node, body.value.node)), body.value.pos)
  {
  }

  /** A do-while loop is its body statement, `while` and the test; the
      parse ends right after the test, with no statement end required. */
  lemma DoShape(toks: seq<Lexeme>, pos: nat)
    requires pos <= |toks|
    ensures var r := DoStatement(toks, pos);
      r.Ok? ==>
        var body := ExpectStatement(toks, pos);
        body.Ok? && Peek(toks, body.value.pos).token == Token.While &&
        var test := ExpressionAt(toks, body.value.pos + 1);
        test.Ok? &&
        r.value == Parsed(Loc(0, 0, Statement.Do(body.value.node, test.value.node)), test.value.pos)
    ensures var body := ExpectStatement(toks, pos);
      body.Ok? && Peek(toks, body.value.pos).token != Token.While ==>
        DoStatement(toks, pos) == Err(UnexpectedToken(Peek(toks, body.value.pos)))
  {
  }

  /** A throw statement is its operand followed by a statement end; it
      succeeds exactly when both are there. */
  lemma ThrowShape(toks: seq<Lexeme>, pos: nat)
    requires pos <= |toks|
    ensures var r := ThrowStatement(toks, pos);
      var value := ExpressionAt(toks, pos);
      (r.Ok? <==> value.Ok? && AsiAt(toks, value.value.pos) != NoSemicolon) &&
      (r.Ok? ==> r.value.node == Loc(0, 0, Statement.Throw(value.value.node)))
  {
  }

  /** A try statement is a block, `catch ( name )`, a second block and a
      statement end; the caught name becomes an identifier expression at
      its own span. */
  lemma TryShape(toks: seq<Lexeme>, pos: nat)
    requires pos <= |toks|
    ensures var r := TryStatement(toks, pos);
      r.Ok? ==>
        var body := BlockBody(toks, pos);
        body.Ok? &&
        var q := body.value.pos;
        Peek(toks, q).token == Catch && Peek(toks, q + 1).token == ParenOpen &&
        Peek(toks, q + 2).token.Identifier? && Peek(toks, q + 3).token == ParenClose &&
        var handler := BlockBody(toks, q + 4);
        var name := Peek(toks, q + 2);
        handler.Ok? && AsiAt(toks, handler.value.pos) != NoSemicolon &&
        r.value.node == Loc(0, 0, Statement.Try(body.value.node,
                                                Loc(name.start, name.end, Expression.Identifier(name.token.name)),
                                                handler.value.node))
    ensures var body := BlockBody(toks, pos);
      body.Ok? && Peek(toks, body.value.pos).token != Catch ==>
        TryStatement(toks, pos) == Err(UnexpectedToken(Peek(toks, body.value.pos)))
  {
  }

  // ---------------------------------------------------------------------
  // For heads (the cursor is just after `for`)
  // ---------------------------------------------------------------------

  /** `for (;;)` has no initializer, test or update. */
  lemma ForEmptyHead(toks: seq<Lexeme>, pos: nat)
    requires pos <= |toks|
    requires Peek(toks, pos).token == ParenOpen && Peek(toks, pos + 1).token == Semicolon
    requires Peek(toks, pos + 2).token == Semicolon && Peek(toks, pos + 3).token == ParenClose
    ensures var r := ForStatement(toks, pos);
      (r.Ok? <==> ExpectStatement(toks, pos + 4).Ok?) &&
      (r.Ok? ==> r.value.node.item == Statement.For(None, None, None, ExpectStatement(toks, pos + 4).value.node))
  {
  }

  /** A head that is a single `in` expression becomes a for-in loop over
      its operands: the left operand, as an expression statement, and the
      right one. */
  lemma ForInFromExpression(toks: seq<Lexeme>, pos: nat, e: Loc<Expression>, q: nat)
    requires pos <= |toks|
    requires Peek(toks, pos).token == ParenOpen
    requires !Peek(toks, pos + 1).token.Semicolon? && !Peek(toks, pos + 1).token.Declaration?
    requires ExpressionFrom(toks, Advance(toks, pos + 1), Peek(toks, pos + 1)) == Ok(Parsed(e, q))
    requires IsBinaryIn(e.item)
    ensures var r := ForStatement(toks, pos);
      r.Ok? ==>
        r.value.node.item.ForIn? &&
        r.value.node.item.left == Loc(0, 0, Statement.Expression(e.item.binaryExpr.left)) &&
        r.value.node.item.right == e.item.binaryExpr.right
    ensures Peek(toks, q).token != ParenClose ==> ForStatement(toks, pos) == Err(UnexpectedToken(Peek(toks, q)))
  {
    var left := Loc(0, 0, Statement.Expression(e.item.binaryExpr.left));
    assert ForStatement(toks, pos) == ForExpressionHead(toks, Advance(toks, pos + 1), Peek(toks, pos + 1));
    assert ForExpressionHead(toks, Advance(toks, pos + 1), Peek(toks, pos + 1))
        == ForInStatementFromParts(toks, q, left, e.item.binaryExpr.right);
  }

  /** A head that declares a single variable initialized with an `in`
      expression becomes a for-in loop over that expression's right operand;
      the declaration, initializer included, is the loop's left side. */
  lemma ForInFromDeclaration(toks: seq<Lexeme>, pos: nat, kind: DeclarationKind, ds: seq<Loc<Declarator>>, q: nat)
    requires pos <= |toks|
    requires Peek(toks, pos).token == ParenOpen && Peek(toks, pos + 1).token == Token.Declaration(kind)
    requires VariableDeclarators(toks, pos + 2) == Ok(Parsed(ds, q))
    requires |ds| == 1 && ds[0].item.value.Some? && IsBinaryIn(ds[0].item.value.value.item)
    ensures var r := ForStatement(toks, pos);
      r.Ok? ==>
        r.value.node.item.ForIn? &&
        r.value.node.item.left == Loc(0, 0, Statement.Declaration(kind, ds)) &&
        r.value.node.item.right == ds[0].item.value.value.item.binaryExpr.right
    ensures Peek(toks, q).token != ParenClose ==> ForStatement(toks, pos) == Err(UnexpectedToken(Peek(toks, q)))
  {
    var left := Loc(0, 0, Statement.Declaration(kind, ds));
    assert ForStatement(toks, pos) == ForDeclarationHead(toks, pos + 2, kind);
    assert ForDeclarationHead(toks, pos + 2, kind)
        == ForInStatementFromParts(toks, q, left, ds[0].item.value.value.item.binaryExpr.right);
  }

  /** After an initializer, `in` makes a for-in loop, the identifier `of` a
      for-of loop and `;` a classic for loop, each keeping the initializer;
      any other token is unexpected. */
  lemma ForInitFollowers(toks: seq<Lexeme>, pos: nat, init: Loc<Statement>)
    requires pos <= |toks|
    ensures var t := Peek(toks, pos).token;
      var r := ForInit(toks, pos, init);
      (t == Operator(In) && r.Ok? ==> r.value.node.item.ForIn? && r.value.node.item.left == init) &&
      (t == Token.Identifier("of") && r.Ok? ==> r.value.node.item.ForOf? && r.value.node.item.left == init) &&
      (t == Semicolon && r.Ok? ==> r.value.node.item.For? && r.value.node.item.init == Some(init)) &&
      (!(t == Operator(In) || t == Token.Identifier("of") || t == Semicolon) ==> r == Err(UnexpectedToken(Peek(toks, pos))))
  {
  }

  // ---------------------------------------------------------------------
  // Function and class statements
  // ---------------------------------------------------------------------

  /** A function statement needs a name: without an identifier after
      `function` the parse fails there; with one, it names the function. */
  lemma FunctionNeedsName(toks: seq<Lexeme>, pos: nat)
    requires pos <= |toks|
    ensures !Peek(toks, pos).token.Identifier? ==>
      FunctionStatement(toks, pos) == Err(UnexpectedToken(Peek(toks, pos)))
    ensures var r := FunctionStatement(toks, pos);
      r.Ok? ==> Peek(toks, pos).token.Identifier? && r.value.node.item.Function? &&
                r.value.node.item.fn.name == Some(NameOf(Peek(toks, pos)))
  {
  }

  /** A class statement needs a name, as a function statement does. */
  lemma ClassNeedsName(toks: seq<Lexeme>, pos: nat)
    requires pos <= |toks|
    ensures !Peek(toks, pos).token.Identifier? ==>
      ClassStatement(toks, pos) == Err(UnexpectedToken(Peek(toks, pos)))
    ensures var r := ClassStatement(toks, pos);
      r.Ok? ==> Peek(toks, pos).token.Identifier? && r.value.node.item.Class? &&
                r.value.node.item.cls.name == Some(NameOf(Peek(toks, pos)))
  {
  }
}

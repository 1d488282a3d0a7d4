/** Properties of the statement JSON generator (core/src/astgen/statement.rs):
    the shared layout of every node, exactly when generation succeeds, the
    synthesized wrappers, and how absent children are written. */
module AstGenFacts {
  import opened Results
  import opened Ast
  import opened AstGen

  // ---------------------------------------------------------------------
  // Layout
  // ---------------------------------------------------------------------

  /** A statement's object is its arm's fields followed by `start` and
      `end`. */
  lemma SpanLast(s: Loc<Statement>)
    requires SerializeStatement(s).Ok?
    ensures StatementFields(s).Ok?
    ensures SerializeStatement(s).value.fields ==
      StatementFields(s).value + [Field(Start, Num(s.start)), Field(End, Num(s.end))]
  {
  }

  lemma LeafKeys(s: Loc<Statement>)
    requires !s.item.Error?
    requires !(s.item.If? || s.item.While? || s.item.Do? || s.item.For? || s.item.ForIn? || s.item.ForOf? || s.item.Labeled?)
    requires !(s.item.Try? || s.item.Block? || s.item.Function? || s.item.Switch? || s.item.SwitchCase?)
    ensures StatementFields(s).Ok? ==> Keys(StatementFields(s).value) == [Type] + OwnKeys(s.item)
  {
  }

  lemma NestedKeys(s: Loc<Statement>)
    requires s.item.If? || s.item.While? || s.item.Do? || s.item.For? || s.item.ForIn? || s.item.ForOf? || s.item.Labeled?
    ensures NestedFields(s).Ok? ==> Keys(NestedFields(s).value) == [Type] + OwnKeys(s.item)
  {
  }

  lemma ListKeys(s: Loc<Statement>)
    requires s.item.Try? || s.item.Block? || s.item.Function? || s.item.Switch? || s.item.SwitchCase?
    ensures ListFields(s).Ok? ==> Keys(ListFields(s).value) == [Type] + OwnKeys(s.item)
  {
    if s.item.Try? || s.item.Function? {
      TryOrFunctionKeys(s);
    } else {
      BlockOrSwitchKeys(s);
    }
  }

  lemma TryOrFunctionKeys(s: Loc<Statement>)
    requires s.item.Try? || s.item.Function?
    ensures ListFields(s).Ok? ==> Keys(ListFields(s).value) == [Type] + OwnKeys(s.item)
  {
  }

  lemma BlockOrSwitchKeys(s: Loc<Statement>)
    requires s.item.Block? || s.item.Switch? || s.item.SwitchCase?
    ensures ListFields(s).Ok? ==> Keys(ListFields(s).value) == [Type] + OwnKeys(s.item)
  {
  }

  /** Every statement object starts with the ESTree `type` of its kind,
      continues with the keys of its kind in order, and ends with `start`
      and `end` from the node's span. */
  lemma StatementLayout(s: Loc<Statement>)
    requires !s.item.Error?
    ensures var r := SerializeStatement(s);
      r.Ok? ==>
        Keys(r.value.fields) == [Type] + OwnKeys(s.item) + [Start, End] &&
        r.value.fields[0] == Field(Type, Tag(TypeOf(s.item))) &&
        r.value.fields[|r.value.fields| - 2..] == [Field(Start, Num(s.start)), Field(End, Num(s.end))]
  {
    var r := SerializeStatement(s);
    if r.Ok? {
      SpanLast(s);
      var fields := StatementFields(s).value;
      if s.item.If? || s.item.While? || s.item.Do? || s.item.For? || s.item.ForIn? || s.item.ForOf? || s.item.Labeled? {
        NestedKeys(s);
        assert fields == NestedFields(s).value;
      } else if s.item.Try? || s.item.Block? || s.item.Function? || s.item.Switch? || s.item.SwitchCase? {
        ListKeys(s);
        assert fields == ListFields(s).value;
      } else {
        LeafKeys(s);
      }
      assert Keys(r.value.fields) == Keys(fields) + [Start, End];
    }
  }

  // ---------------------------------------------------------------------
  // When generation succeeds
  // ---------------------------------------------------------------------

  /** A statement tree the generator accepts: no `Error` node anywhere
      below it, and only identifiers and array patterns as declarator
      ids. */
  predicate Serializable(s: Loc<Statement>)
    decreases s, 1
  {
    match s.item
    case Error => false
    case Declaration(_, ds) => forall i :: 0 <= i < |ds| ==> SupportedId(ds[i].item.name)
    case If(_, c, a) => Serializable(c) && (a.Some? ==> Serializable(a.value))
    case While(_, b) => Serializable(b)
    case Do(b, _) => Serializable(b)
    case For(i, _, _, b) => (i.Some? ==> Serializable(i.value)) && Serializable(b)
    case ForIn(l, _, b) => Serializable(l) && Serializable(b)
    case ForOf(l, _, b) => Serializable(l) && Serializable(b)
    case Labeled(_, b) => Serializable(b)
    case Try(b, _, h) => AllSerializable(b) && AllSerializable(h)
    case Block(list) => AllSerializable(list)
    case Function(fn) => AllSerializable(fn.body)
    case Switch(_, cases) => AllSerializable(cases)
    case SwitchCase(_, list) => AllSerializable(list)
    case _ => true
  }

  predicate AllSerializable(list: seq<Loc<Statement>>)
    decreases list, 0
  {
    forall i :: 0 <= i < |list| ==> Serializable(list[i])
  }

  /** A declarator list is written exactly when every id is supported. */
  lemma {:induction false} DeclaratorsOk(ds: seq<Loc<Declarator>>)
    ensures SerializeDeclarators(ds).Ok? <==> forall i :: 0 <= i < |ds| ==> SupportedId(ds[i].item.name)
  {
    if ds != [] {
      DeclaratorsOk(ds[1..]);
      assert forall i | 1 <= i < |ds| :: ds[i] == ds[1..][i - 1];
    }
  }

  /** Generation succeeds exactly on the trees with no `Error` node and no
      unsupported declarator pattern; otherwise it reports one of the two
      panics. */
  lemma {:induction false} StatementOk(s: Loc<Statement>)
    ensures SerializeStatement(s).Ok? <==> Serializable(s)
    decreases s, 2
  {
    assert SerializeStatement(s).Ok? <==> StatementFields(s).Ok?;
    match s.item
    case If(_, _, _) => NestedOk(s);
    case While(_, _) => NestedOk(s);
    case Do(_, _) => NestedOk(s);
    case For(_, _, _, _) => NestedOk(s);
    case ForIn(_, _, _) => NestedOk(s);
    case ForOf(_, _, _) => NestedOk(s);
    case Labeled(_, _) => NestedOk(s);
    case Try(_, _, _) => ListOk(s);
    case Block(_) => ListOk(s);
    case Function(_) => ListOk(s);
    case Switch(_, _) => ListOk(s);
    case SwitchCase(_, _) => ListOk(s);
    case Declaration(_, ds) => DeclaratorsOk(ds);
    case _ =>
  }

  lemma {:induction false} NestedOk(s: Loc<Statement>)
    requires s.item.If? || s.item.While? || s.item.Do? || s.item.For? || s.item.ForIn? || s.item.ForOf? || s.item.Labeled?
    ensures NestedFields(s).Ok? <==> Serializable(s)
    decreases s, 1
  {
    match s.item
    case If(_, c, a) =>
      StatementOk(c);
      if a.Some? { StatementOk(a.value); }
    case While(_, b) => StatementOk(b);
    case Do(b, _) => StatementOk(b);
    case For(i, _, _, b) =>
      StatementOk(b);
      if i.Some? { StatementOk(i.value); }
    case ForIn(l, _, b) => StatementOk(l); StatementOk(b);
    case ForOf(l, _, b) => StatementOk(l); StatementOk(b);
    case Labeled(_, b) => StatementOk(b);
  }

  lemma {:induction false} ListOk(s: Loc<Statement>)
    requires s.item.Try? || s.item.Block? || s.item.Function? || s.item.Switch? || s.item.SwitchCase?
    ensures ListFields(s).Ok? <==> Serializable(s)
    decreases s, 1
  {
    match s.item
    case Try(b, e, h) =>
      StatementsOk(b);
      StatementsOk(h);
      assert SerializeBlock(Loc(s.start, s.end, BlockWrapper(b))).Ok? <==> SerializeStatements(b).Ok?;
      assert SerializeCatchClause(Loc(s.start, s.end, CatchWrapper(e, h))).Ok? <==>
        SerializeBlock(Loc(s.start, s.end, BlockWrapper(h))).Ok?;
    case Block(list) => StatementsOk(list);
    case Function(fn) =>
      StatementsOk(fn.body);
      assert SerializeFunctionBody(s.start, s.end, fn.body).Ok? <==>
        SerializeBlock(Loc(s.start, s.end, BlockWrapper(fn.body))).Ok?;
    case Switch(_, cases) => StatementsOk(cases);
    case SwitchCase(_, list) => StatementsOk(list);
  }

  lemma {:induction false} StatementsOk(list: seq<Loc<Statement>>)
    ensures SerializeStatements(list).Ok? <==> AllSerializable(list)
    decreases list, 0
  {
    if list != [] {
      StatementOk(list[0]);
      StatementsOk(list[1..]);
      assert forall i | 1 <= i < |list| :: list[i] == list[1..][i - 1];
    }
  }

  // ---------------------------------------------------------------------
  // What the arms write
  // ---------------------------------------------------------------------

  /** A declaration writes its kind's keyword, then every declarator in
      source order. */
  lemma DeclarationsInOrder(s: Loc<Statement>)
    requires s.item.Declaration?
    ensures var r := SerializeStatement(s);
      r.Ok? ==>
        |r.value.fields| == 5 &&
        r.value.fields[1] == Field(Kind, Str(KindName(s.item.kind))) &&
        r.value.fields[2].key == Declarations &&
        r.value.fields[2].value.Arr? &&
        |r.value.fields[2].value.items| == |s.item.declarators| &&
        forall i :: 0 <= i < |s.item.declarators| ==>
          Ok(r.value.fields[2].value.items[i]) == SerializeDeclarator(s.item.declarators[i])
  {
    if SerializeStatement(s).Ok? {
      SpanLast(s);
    }
  }

  /** The two statement lists of a try are written as synthesized
      BlockStatement nodes over the try's own span, the second inside a
      CatchClause whose `param` is the caught binding. */
  lemma TryWrappers(s: Loc<Statement>)
    requires s.item.Try?
    ensures var r := SerializeStatement(s);
      var block := SerializeStatements(s.item.block);
      var handler := SerializeStatements(s.item.handler);
      (r.Ok? <==> block.Ok? && handler.Ok?) &&
      (r.Ok? ==>
        |r.value.fields| == 5 &&
        r.value.fields[1] == Field(Key.Block, Node(BlockStatement, s.start, s.end, [Field(Body, Arr(block.value))])) &&
        r.value.fields[2] == Field(Handler, Node(CatchClause, s.start, s.end, [
          Field(Param, ExpressionNode(s.item.error)),
          Field(Body, Node(BlockStatement, s.start, s.end, [Field(Body, Arr(handler.value))]))])))
  {
    var b := Loc(s.start, s.end, BlockWrapper(s.item.block));
    var h := Loc(s.start, s.end, BlockWrapper(s.item.handler));
    var c := Loc(s.start, s.end, CatchWrapper(s.item.error, s.item.handler));
    assert SerializeBlock(b).Ok? <==> SerializeStatements(s.item.block).Ok?;
    assert SerializeBlock(h).Ok? <==> SerializeStatements(s.item.handler).Ok?;
    assert SerializeCatchClause(c).Ok? <==> SerializeBlock(h).Ok?;
    if SerializeStatement(s).Ok? {
      SpanLast(s);
      assert StatementFields(s) == ListFields(s);
    }
  }

  /** A function declaration writes its name or `null`, its parameters in
      order, and its body as a BlockStatement over the declaration's
      span. */
  lemma FunctionBodyIsBlock(s: Loc<Statement>)
    requires s.item.Function?
    ensures var r := SerializeStatement(s);
      var body := SerializeStatements(s.item.fn.body);
      (r.Ok? <==> body.Ok?) &&
      (r.Ok? ==>
        |r.value.fields| == 6 &&
        r.value.fields[1] == Field(Id, OptionalName(s.item.fn.name)) &&
        r.value.fields[2] == Field(Params, Arr(ParameterNodes(s.item.fn.params))) &&
        r.value.fields[3] == Field(Body, Node(BlockStatement, s.start, s.end, [Field(Body, Arr(body.value))])))
  {
    var b := Loc(s.start, s.end, BlockWrapper(s.item.fn.body));
    assert SerializeBlock(b).Ok? <==> SerializeStatements(s.item.fn.body).Ok?;
    assert SerializeFunctionBody(s.start, s.end, s.item.fn.body) == SerializeBlock(b);
    assert StatementFields(s) == ListFields(s);
    if SerializeStatement(s).Ok? {
      SpanLast(s);
    }
  }

  // ---------------------------------------------------------------------
  // Absent children
  // ---------------------------------------------------------------------

  /** An absent `else` is written as `null`, and only then. */
  lemma AbsentAlternateIsNull(s: Loc<Statement>)
    requires s.item.If?
    ensures var r := SerializeStatement(s);
      r.Ok? ==>
        |r.value.fields| == 6 && r.value.fields[3].key == Alternate &&
        (r.value.fields[3].value == Json.Null <==> s.item.alternate.None?)
  {
    if SerializeStatement(s).Ok? {
      SpanLast(s);
      assert StatementFields(s) == NestedFields(s);
    }
  }

  /** Each absent part of a `for` head is written as `null`, and only
      then. */
  lemma AbsentForPartsAreNull(s: Loc<Statement>)
    requires s.item.For?
    ensures var r := SerializeStatement(s);
      r.Ok? ==>
        |r.value.fields| == 7 &&
        Keys(r.value.fields[1..4]) == [Init, Test, Update] &&
        (r.value.fields[1].value == Json.Null <==> s.item.init.None?) &&
        (r.value.fields[2].value == Json.Null <==> s.item.condition.None?) &&
        (r.value.fields[3].value == Json.Null <==> s.item.update.None?)
  {
    if SerializeStatement(s).Ok? {
      SpanLast(s);
      assert StatementFields(s) == NestedFields(s);
    }
  }

  /** A bare `return`, `break` or `continue` writes `null` as its argument
      or label, and only then; a `case` without a test (`default`) writes
      `null` as its test. */
  lemma AbsentOperandIsNull(s: Loc<Statement>)
    requires s.item.Return? || s.item.Break? || s.item.Continue? || s.item.SwitchCase?
    ensures var r := SerializeStatement(s);
      r.Ok? ==>
        |r.value.fields| >= 4 &&
        (s.item.Return? ==> r.value.fields[1].key == Argument && (r.value.fields[1].value == Json.Null <==> s.item.value.None?)) &&
        (s.item.Break? || s.item.Continue? ==> r.value.fields[1].key == Label && (r.value.fields[1].value == Json.Null <==> s.item.target.None?)) &&
        (s.item.SwitchCase? ==> r.value.fields[1].key == Test && (r.value.fields[1].value == Json.Null <==> s.item.caseTest.None?))
  {
    if SerializeStatement(s).Ok? {
      SpanLast(s);
      if s.item.SwitchCase? {
        assert StatementFields(s) == ListFields(s);
      }
    }
  }

  // ---------------------------------------------------------------------
  // Distinct keys
  // ---------------------------------------------------------------------

  /** No key is written twice in a statement object. */
  lemma StatementKeysDistinct(s: Loc<Statement>)
    requires !s.item.Error?
    ensures var r := SerializeStatement(s);
      r.Ok? ==>
        forall i, j :: 0 <= i < j < |r.value.fields| ==> r.value.fields[i].key != r.value.fields[j].key
  {
    var r := SerializeStatement(s);
    if r.Ok? {
      StatementLayout(s);
      var keys := [Type] + OwnKeys(s.item) + [Start, End];
      OwnKeysDistinct(s.item);
      forall i, j | 0 <= i < j < |r.value.fields|
        ensures r.value.fields[i].key != r.value.fields[j].key
      {
        assert r.value.fields[i].key == keys[i] && r.value.fields[j].key == keys[j];
      }
    }
  }

  lemma OwnKeysDistinct(s: Statement)
    requires !s.Error?
    ensures var keys := [Type] + OwnKeys(s) + [Start, End];
      forall i, j :: 0 <= i < j < |keys| ==> keys[i] != keys[j]
  {
  }

  // ---------------------------------------------------------------------
  // The two arms as written
  // ---------------------------------------------------------------------

  /** As written, an array pattern's start offset goes under `self`, so the
      node has no `start` key; the corrected arm writes `start`. */
  lemma ArrayPatternAsWritten(id: Loc<DeclaratorId>)
    requires id.item.Pattern? && id.item.pattern.item.Array?
    ensures var w := SerializeDeclaratorIdAsWritten(id);
      w.Ok? && w.value.Obj? &&
      Keys(w.value.fields) == [Type, Elements, Self, End] &&
      Start !in Keys(w.value.fields)
    ensures var c := SerializeDeclaratorId(id);
      c.Ok? && c.value.Obj? && Start in Keys(c.value.fields)
  {
    var c := SerializeDeclaratorId(id);
    assert Keys(c.value.fields)[2] == Start;
  }

  /** As written, a function whose body is a single block statement gets
      an array as its `body` instead of a node; the corrected arm writes a
      BlockStatement node for every body. */
  lemma OnlyBlockBodyAsWritten(start: nat, end: nat, b: Loc<Statement>)
    requires b.item.Block? && SerializeStatement(b).Ok?
    ensures var w := SerializeFunctionBodyAsWritten(start, end, [b]);
      w == Ok(Arr([SerializeStatement(b).value])) && !w.value.Obj?
    ensures var c := SerializeFunctionBody(start, end, [b]);
      c == Ok(Node(BlockStatement, start, end, [Field(Body, Arr([SerializeStatement(b).value]))]))
  {
    var list := [b];
    assert list[0] == b && list[1..] == [];
    assert SerializeStatements(list[1..]) == Ok([]);
    assert SerializeStatements(list) == Ok([SerializeStatement(b).value] + []);
    assert [SerializeStatement(b).value] + [] == [SerializeStatement(b).value];
  }
}

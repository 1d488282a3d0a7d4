/** The JSON generator for statements (core/src/astgen/statement.rs): every
    statement node becomes an ESTree object, modelled as the ordered list of
    key/value pairs the serializer writes, in writing order.

    The keys and the ESTree node type names the file writes are enumerated
    (`Key`, `NodeType`); `KeyText` and `TypeText` give their exact text.
    Values the serializer hands to impls that are not part of this model
    (expressions, names, parameters, class bodies) stay as opaque leaves
    carrying the node they would serialize. */
module AstGen {
  import opened Results
  import opened Ast

  /** The keys the file writes. */
  datatype Key =
    | Type | Start | End | Self
    | Expression | Kind | Declarations | Argument | Label
    | Test | Consequent | Alternate | Body | Init | Update | Left | Right
    | Block | Handler | Param | Id | Params | SuperClass | Discriminant | Cases | Elements

  function KeyText(k: Key): string {
    match k
    case Type => "type"
    case Start => "start"
    case End => "end"
    case Self => "self"
    case Expression => "expression"
    case Kind => "kind"
    case Declarations => "declarations"
    case Argument => "argument"
    case Label => "label"
    case Test => "test"
    case Consequent => "consequent"
    case Alternate => "alternate"
    case Body => "body"
    case Init => "init"
    case Update => "update"
    case Left => "left"
    case Right => "right"
    case Block => "block"
    case Handler => "handler"
    case Param => "param"
    case Id => "id"
    case Params => "params"
    case SuperClass => "superClass"
    case Discriminant => "discriminant"
    case Cases => "cases"
    case Elements => "elements"
  }

  /** The ESTree node types the file writes under `type`. */
  datatype NodeType =
    | EmptyStatement | ExpressionStatement | VariableDeclaration | ReturnStatement
    | BreakStatement | ContinueStatement | ThrowStatement | IfStatement
    | WhileStatement | DoWhileStatement | ForStatement | ForInStatement | ForOfStatement
    | TryStatement | BlockStatement | LabeledStatement | FunctionDeclaration
    | ClassDeclaration | SwitchStatement | SwitchCase
    | CatchClause | VariableDeclarator | ArrayPattern

  function TypeText(t: NodeType): string {
    match t
    case EmptyStatement => "EmptyStatement"
    case ExpressionStatement => "ExpressionStatement"
    case VariableDeclaration => "VariableDeclaration"
    case ReturnStatement => "ReturnStatement"
    case BreakStatement => "BreakStatement"
    case ContinueStatement => "ContinueStatement"
    case ThrowStatement => "ThrowStatement"
    case IfStatement => "IfStatement"
    case WhileStatement => "WhileStatement"
    case DoWhileStatement => "DoWhileStatement"
    case ForStatement => "ForStatement"
    case ForInStatement => "ForInStatement"
    case ForOfStatement => "ForOfStatement"
    case TryStatement => "TryStatement"
    case BlockStatement => "BlockStatement"
    case LabeledStatement => "LabeledStatement"
    case FunctionDeclaration => "FunctionDeclaration"
    case ClassDeclaration => "ClassDeclaration"
    case SwitchStatement => "SwitchStatement"
    case SwitchCase => "SwitchCase"
    case CatchClause => "CatchClause"
    case VariableDeclarator => "VariableDeclarator"
    case ArrayPattern => "ArrayPattern"
  }

  /** The JSON the serializer writes. A `Tag` is the string naming a node
      type, written under `type`. */
  datatype Json =
    | Null
    | Num(n: nat)
    | Str(s: string)
    | Tag(nodeType: NodeType)
    | Arr(items: seq<Json>)
    | Obj(fields: seq<Field>)
    | ExpressionNode(expression: Loc<Expression>)
    | NameNode(name: Loc<string>)
    | ParameterNode(parameter: Parameter)
    | ClassBodyNode(classBody: Loc<seq<Loc<ClassMember>>>)

  /** One `serialize_field` call. */
  datatype Field = Field(key: Key, value: Json)

  /** The two panics of the file. */
  datatype GenError =
    | ModuleContainsErrors   // an `Error` statement reached the generator
    | UnimplementedPattern   // a declarator pattern other than an array

  /** The file's `BlockStatement` struct: a statement list to be written as
      a block. */
  datatype BlockWrapper = BlockWrapper(body: seq<Loc<Statement>>)

  /** The file's `CatchClause` struct: the `catch` part of a try. */
  datatype CatchWrapper = CatchWrapper(param: Loc<Expression>, body: seq<Loc<Statement>>)

  /** The keys of an object, in writing order. */
  function Keys(fields: seq<Field>): (keys: seq<Key>)
    ensures |keys| == |fields|
    ensures forall i :: 0 <= i < |fields| ==> keys[i] == fields[i].key
  {
    seq(|fields|, i requires 0 <= i < |fields| => fields[i].key)
  }

  /** The layout `in_loc` gives a node, and every statement object shares:
      `type` first, the node's own fields, then `start` and `end`. */
  function Node(t: NodeType, start: nat, end: nat, fields: seq<Field>): (o: Json)
    ensures o.Obj? && |o.fields| == |fields| + 3
    ensures o.fields[0] == Field(Type, Tag(t))
    ensures o.fields[1..|fields| + 1] == fields
    ensures o.fields[|fields| + 1..] == [Field(Start, Num(start)), Field(End, Num(end))]
  {
    Obj([Field(Type, Tag(t))] + fields + [Field(Start, Num(start)), Field(End, Num(end))])
  }

  /** The ESTree type of each serializable statement kind. */
  function TypeOf(s: Statement): NodeType
    requires !s.Error?
  {
    match s
    case Empty => EmptyStatement
    case Expression(_) => ExpressionStatement
    case Declaration(_, _) => VariableDeclaration
    case Return(_) => ReturnStatement
    case Break(_) => BreakStatement
    case Continue(_) => ContinueStatement
    case Throw(_) => ThrowStatement
    case If(_, _, _) => IfStatement
    case While(_, _) => WhileStatement
    case Do(_, _) => DoWhileStatement
    case For(_, _, _, _) => ForStatement
    case ForIn(_, _, _) => ForInStatement
    case ForOf(_, _, _) => ForOfStatement
    case Try(_, _, _) => TryStatement
    case Block(_) => BlockStatement
    case Labeled(_, _) => LabeledStatement
    case Function(_) => FunctionDeclaration
    case Class(_) => ClassDeclaration
    case Switch(_, _) => SwitchStatement
    case SwitchCase(_, _) => NodeType.SwitchCase
  }

  /** The ESTree keys of each serializable statement kind, between `type`
      and `start`/`end`, in order. */
  function OwnKeys(s: Statement): seq<Key>
    requires !s.Error?
  {
    match s
    case Empty => []
    case Expression(_) => [Key.Expression]
    case Declaration(_, _) => [Kind, Declarations]
    case Return(_) | Throw(_) => [Argument]
    case Break(_) | Continue(_) => [Label]
    case If(_, _, _) => [Test, Consequent, Alternate]
    case While(_, _) => [Test, Body]
    case Do(_, _) => [Body, Test]
    case For(_, _, _, _) => [Init, Test, Update, Body]
    case ForIn(_, _, _) | ForOf(_, _, _) => [Left, Right, Body]
    case Try(_, _, _) => [Key.Block, Handler]
    case Block(_) => [Body]
    case Labeled(_, _) => [Label, Body]
    case Function(_) => [Id, Params, Body]
    case Class(_) => [Id, SuperClass, Body]
    case Switch(_, _) => [Discriminant, Cases]
    case SwitchCase(_, _) => [Test, Consequent]
  }

  /** What the declaration kind serializes to. */
  function KindName(kind: DeclarationKind): string {
    match kind
    case Var => "var"
    case Let => "let"
    case Const => "const"
  }

  /** An `Option` of an expression: `null` when absent. */
  function OptionalExpression(e: Option<Loc<Expression>>): (j: Json)
    ensures j == Json.Null <==> e.None?
  {
    match e
    case None => Json.Null
    case Some(x) => ExpressionNode(x)
  }

  /** An `Option` of a name: `null` when absent. */
  function OptionalName(n: Option<Loc<string>>): (j: Json)
    ensures j == Json.Null <==> n.None?
  {
    match n
    case None => Json.Null
    case Some(x) => NameNode(x)
  }

  function ParameterNodes(params: seq<Parameter>): (items: seq<Json>)
    ensures |items| == |params|
    ensures forall i :: 0 <= i < |params| ==> items[i] == ParameterNode(params[i])
  {
    seq(|params|, i requires 0 <= i < |params| => ParameterNode(params[i]))
  }

  function ExpressionNodes(es: seq<Loc<Expression>>): (items: seq<Json>)
    ensures |items| == |es|
    ensures forall i :: 0 <= i < |es| ==> items[i] == ExpressionNode(es[i])
  {
    seq(|es|, i requires 0 <= i < |es| => ExpressionNode(es[i]))
  }

  // ---------------------------------------------------------------------
  // Declarators
  // ---------------------------------------------------------------------

  /** The declarator ids the generator can write: identifiers and array
      patterns. */
  predicate SupportedId(id: DeclaratorId) {
    id.Identifier? || id.pattern.item.Array?
  }

  /** `Serialize for Loc<DeclaratorId>`: an identifier is written as an
      Identifier expression over the given span, an array pattern as an
      ArrayPattern node over its elements, and any other pattern is
      unimplemented. */
  function SerializeDeclaratorId(id: Loc<DeclaratorId>): (r: Result<Json, GenError>)
    ensures r.Ok? <==> SupportedId(id.item)
    ensures r.Err? ==> r.error == UnimplementedPattern
    ensures id.item.Identifier? ==> r == Ok(ExpressionNode(Loc(id.start, id.end, Expression.Identifier(id.item.name))))
    ensures r.Ok? && id.item.Pattern? ==>
      r.value.Obj? && Keys(r.value.fields) == [Type, Elements, Start, End] &&
      r.value.fields[0].value == Tag(ArrayPattern) &&
      r.value.fields[1].value == Arr(ExpressionNodes(id.item.pattern.item.arrayExpr.body)) &&
      r.value.fields[2..] == [Field(Start, Num(id.start)), Field(End, Num(id.end))]
  {
    match id.item
    case Identifier(name) => Ok(ExpressionNode(Loc(id.start, id.end, Expression.Identifier(name))))
    case Pattern(p) =>
      match p.item
      case Array(arr) =>
        Ok(Node(ArrayPattern, id.start, id.end, [Field(Elements, Arr(ExpressionNodes(arr.body)))]))
      case _ => Err(UnimplementedPattern)
  }

  /** The array-pattern arm as written: the start offset goes under the key
      `self`. */
  function SerializeDeclaratorIdAsWritten(id: Loc<DeclaratorId>): (r: Result<Json, GenError>)
    ensures r.Ok? <==> SupportedId(id.item)
    ensures id.item.Identifier? ==> r == SerializeDeclaratorId(id)
  {
    match id.item
    case Identifier(name) => Ok(ExpressionNode(Loc(id.start, id.end, Expression.Identifier(name))))
    case Pattern(p) =>
      match p.item
      case Array(arr) =>
        Ok(Obj([Field(Type, Tag(ArrayPattern)), Field(Elements, Arr(ExpressionNodes(arr.body))),
                Field(Self, Num(id.start)), Field(End, Num(id.end))]))
      case _ => Err(UnimplementedPattern)
  }

  /** `Serialize for Loc<Declarator>`: the id is written over the
      declarator's own span, then the initializer or `null`. */
  function SerializeDeclarator(d: Loc<Declarator>): (r: Result<Json, GenError>)
    ensures r.Ok? <==> SupportedId(d.item.name)
    ensures r.Ok? ==>
      r.value.Obj? && Keys(r.value.fields) == [Type, Id, Init, Start, End] &&
      r.value.fields[0].value == Tag(VariableDeclarator) &&
      Ok(r.value.fields[1].value) == SerializeDeclaratorId(Loc(d.start, d.end, d.item.name)) &&
      (r.value.fields[2].value == Json.Null <==> d.item.value.None?) &&
      r.value.fields[3..] == [Field(Start, Num(d.start)), Field(End, Num(d.end))]
  {
    var id :- SerializeDeclaratorId(Loc(d.start, d.end, d.item.name));
    Ok(Node(VariableDeclarator, d.start, d.end, [Field(Id, id), Field(Init, OptionalExpression(d.item.value))]))
  }

  /** A declarator list, in order; the first unsupported id aborts it. */
  function SerializeDeclarators(ds: seq<Loc<Declarator>>): (r: Result<seq<Json>, GenError>)
    ensures r.Ok? ==> |r.value| == |ds|
    ensures r.Ok? ==> forall i :: 0 <= i < |ds| ==> Ok(r.value[i]) == SerializeDeclarator(ds[i])
  {
    if ds == [] then Ok([])
    else
      var head :- SerializeDeclarator(ds[0]);
      var tail :- SerializeDeclarators(ds[1..]);
      Ok([head] + tail)
  }

  // ---------------------------------------------------------------------
  // Statements
  // ---------------------------------------------------------------------

  /** `Serialize for Loc<Statement>`: the arm of the node's kind writes
      `type` and the kind's own fields, then `start` and `end` follow from
      the node's span. The full layout is `AstGenFacts.StatementLayout`. */
  function SerializeStatement(s: Loc<Statement>): (r: Result<Json, GenError>)
    ensures s.item.Error? ==> r == Err(ModuleContainsErrors)
    ensures r.Ok? ==>
      !s.item.Error? && r.value.Obj?
    decreases s, 3
  {
    var fields :- StatementFields(s);
    Ok(Obj(fields + [Field(Start, Num(s.start)), Field(End, Num(s.end))]))
  }

  /** The arms of the match in `Serialize for Loc<Statement>`: an `Error`
      statement aborts generation, any other kind writes its `type` and its
      own fields in order. The arms of the kinds with nested statements are
      in `NestedFields` and `ListFields`. */
  function StatementFields(s: Loc<Statement>): (r: Result<seq<Field>, GenError>)
    ensures s.item.Error? ==> r == Err(ModuleContainsErrors)
    ensures r.Ok? ==>
      !s.item.Error? &&
      |r.value| > 0 &&
      r.value[0] == Field(Type, Tag(TypeOf(s.item)))
    decreases s, 2
  {
    match s.item
    case Error => Err(ModuleContainsErrors)
    case Empty => Ok([Field(Type, Tag(EmptyStatement))])
    case Expression(e) =>
      Ok([Field(Type, Tag(ExpressionStatement)), Field(Key.Expression, ExpressionNode(e))])
    case Declaration(kind, ds) =>
      var items :- SerializeDeclarators(ds);
      Ok([Field(Type, Tag(VariableDeclaration)), Field(Kind, Str(KindName(kind))), Field(Declarations, Arr(items))])
    case Return(value) =>
      Ok([Field(Type, Tag(ReturnStatement)), Field(Argument, OptionalExpression(value))])
    case Break(target) =>
      Ok([Field(Type, Tag(BreakStatement)), Field(Label, OptionalExpression(target))])
    case Throw(value) =>
      Ok([Field(Type, Tag(ThrowStatement)), Field(Argument, ExpressionNode(value))])
    case Class(cls) =>
      Ok([Field(Type, Tag(ClassDeclaration)), Field(Id, OptionalName(cls.name)),
          Field(SuperClass, OptionalExpression(cls.superClass)),
          Field(Body, ClassBodyNode(Loc(s.start, s.end, cls.body)))])
    case Continue(target) =>
      Ok([Field(Type, Tag(ContinueStatement)), Field(Label, OptionalExpression(target))])
    case If(_, _, _) | While(_, _) | Do(_, _) | For(_, _, _, _) | ForIn(_, _, _) | ForOf(_, _, _) | Labeled(_, _) =>
      NestedFields(s)
    case Try(_, _, _) | Block(_) | Function(_) | Switch(_, _) | SwitchCase(_, _) =>
      ListFields(s)
  }

  /** The arms of the kinds with single nested statements. */
  function NestedFields(s: Loc<Statement>): (r: Result<seq<Field>, GenError>)
    requires s.item.If? || s.item.While? || s.item.Do? || s.item.For? || s.item.ForIn? || s.item.ForOf? || s.item.Labeled?
    ensures r.Ok? ==>
      !s.item.Error? &&
      |r.value| > 0 &&
      r.value[0] == Field(Type, Tag(TypeOf(s.item)))
    decreases s, 1
  {
    match s.item
    case If(test, consequent, alternate) =>
      var c :- SerializeStatement(consequent);
      var a :- SerializeOptionalStatement(alternate);
      Ok([Field(Type, Tag(IfStatement)), Field(Test, ExpressionNode(test)), Field(Consequent, c), Field(Alternate, a)])
    case While(test, body) =>
      var b :- SerializeStatement(body);
      Ok([Field(Type, Tag(WhileStatement)), Field(Test, ExpressionNode(test)), Field(Body, b)])
    case Do(body, test) =>
      var b :- SerializeStatement(body);
      Ok([Field(Type, Tag(DoWhileStatement)), Field(Body, b), Field(Test, ExpressionNode(test))])
    case For(init, condition, update, body) =>
      var i :- SerializeOptionalStatement(init);
      var b :- SerializeStatement(body);
      Ok([Field(Type, Tag(ForStatement)), Field(Init, i), Field(Test, OptionalExpression(condition)),
          Field(Update, OptionalExpression(update)), Field(Body, b)])
    case ForIn(left, right, body) =>
      var l :- SerializeStatement(left);
      var b :- SerializeStatement(body);
      Ok([Field(Type, Tag(ForInStatement)), Field(Left, l), Field(Right, ExpressionNode(right)), Field(Body, b)])
    case ForOf(left, right, body) =>
      var l :- SerializeStatement(left);
      var b :- SerializeStatement(body);
      Ok([Field(Type, Tag(ForOfStatement)), Field(Left, l), Field(Right, ExpressionNode(right)), Field(Body, b)])
    case Labeled(name, body) =>
      var b :- SerializeStatement(body);
      Ok([Field(Type, Tag(LabeledStatement)), Field(Label, Str(name)), Field(Body, b)])
  }

  /** The arms of the kinds with nested statement lists. */
  function ListFields(s: Loc<Statement>): (r: Result<seq<Field>, GenError>)
    requires s.item.Try? || s.item.Block? || s.item.Function? || s.item.Switch? || s.item.SwitchCase?
    ensures r.Ok? ==>
      !s.item.Error? &&
      |r.value| > 0 &&
      r.value[0] == Field(Type, Tag(TypeOf(s.item)))
    decreases s, 0
  {
    match s.item
    case Try(block, error, handler) =>
      var b :- SerializeBlock(Loc(s.start, s.end, BlockWrapper(block)));
      var h :- SerializeCatchClause(Loc(s.start, s.end, CatchWrapper(error, handler)));
      Ok([Field(Type, Tag(TryStatement)), Field(Key.Block, b), Field(Handler, h)])
    case Block(statements) =>
      var items :- SerializeStatements(statements);
      Ok([Field(Type, Tag(BlockStatement)), Field(Body, Arr(items))])
    case Function(fn) =>
      var b :- SerializeFunctionBody(s.start, s.end, fn.body);
      Ok([Field(Type, Tag(FunctionDeclaration)), Field(Id, OptionalName(fn.name)),
          Field(Params, Arr(ParameterNodes(fn.params))), Field(Body, b)])
    case Switch(discriminant, cases) =>
      var items :- SerializeStatements(cases);
      Ok([Field(Type, Tag(SwitchStatement)), Field(Discriminant, ExpressionNode(discriminant)), Field(Cases, Arr(items))])
    case SwitchCase(caseTest, caseBody) =>
      var items :- SerializeStatements(caseBody);
      Ok([Field(Type, Tag(NodeType.SwitchCase)), Field(Test, OptionalExpression(caseTest)), Field(Consequent, Arr(items))])
  }

  /** An `Option` of a statement: `null` when absent. */
  function SerializeOptionalStatement(o: Option<Loc<Statement>>): (r: Result<Json, GenError>)
    ensures o.None? ==> r == Ok(Json.Null)
    ensures r.Ok? && o.Some? ==> r.value.Obj?
    decreases o, 0
  {
    match o
    case None => Ok(Json.Null)
    case Some(s) => SerializeStatement(s)
  }

  /** A statement list, in order; the first failing statement aborts it. */
  function SerializeStatements(list: seq<Loc<Statement>>): (r: Result<seq<Json>, GenError>)
    ensures r.Ok? ==> |r.value| == |list|
    ensures r.Ok? ==> forall i :: 0 <= i < |list| ==> Ok(r.value[i]) == SerializeStatement(list[i])
    decreases list, 0
  {
    if list == [] then Ok([])
    else
      var head :- SerializeStatement(list[0]);
      var tail :- SerializeStatements(list[1..]);
      Ok([head] + tail)
  }

  /** `BlockStatement::serialize`, through `in_loc`. */
  function SerializeBlock(b: Loc<BlockWrapper>): (r: Result<Json, GenError>)
    decreases b.item.body, 1
  {
    var items :- SerializeStatements(b.item.body);
    Ok(Node(BlockStatement, b.start, b.end, [Field(Body, Arr(items))]))
  }

  /** `Serialize for Loc<CatchClause>`: the body becomes a block over the
      clause's own span. */
  function SerializeCatchClause(c: Loc<CatchWrapper>): (r: Result<Json, GenError>)
    decreases c.item.body, 2
  {
    var body :- SerializeBlock(Loc(c.start, c.end, BlockWrapper(c.item.body)));
    Ok(Node(CatchClause, c.start, c.end, [Field(Param, ExpressionNode(c.item.param)), Field(Body, body)]))
  }

  /** A function declaration's body: a block over the function statement's
      span. */
  function SerializeFunctionBody(start: nat, end: nat, body: seq<Loc<Statement>>): (r: Result<Json, GenError>)
    decreases body, 2
  {
    SerializeBlock(Loc(start, end, BlockWrapper(body)))
  }

  /** The function-body arm as written: a body whose only element is a block
      statement is written as the statement list itself. */
  function SerializeFunctionBodyAsWritten(start: nat, end: nat, body: seq<Loc<Statement>>): (r: Result<Json, GenError>)
    ensures r.Ok? <==> SerializeStatements(body).Ok?
    ensures !(|body| == 1 && body[0].item.Block?) ==> r == SerializeFunctionBody(start, end, body)
  {
    if |body| == 1 && body[0].item.Block? then
      var items :- SerializeStatements(body);
      Ok(Arr(items))
    else
      SerializeBlock(Loc(start, end, BlockWrapper(body)))
  }
}

/** The abstract syntax tree of the JavaScript front end: expressions, object
    members and properties (core/src/ast/expression.rs), and the statements and
    declarators the statement parser builds and the JSON generator reads. The
    statement types live in a file that is not part of this model; their shape
    here is the one those two files construct and match on.

    Arena pointers (`ExpressionPtr`, `StatementPtr`, `List`) become plain
    values and sequences: the tree owns its children and nothing is shared. */
module Ast {
  import opened Results

  /** A node together with its source span `[start, end)`. */
  datatype Loc<+T> = Loc(start: nat, end: nat, item: T)

  /** The source's `u8`. */
  newtype U8 = x: int | 0 <= x < 256

  /** The operators the model's tokens can carry (`OperatorKind`); the full
      operator table of the lexer is not part of this model. */
  datatype OperatorKind =
    | In | Assign | Lesser | Greater | StrictEquality
    | Addition | Subtraction | Multiplication | Division
    | LogicalAnd | LogicalOr
    | Increment | Decrement | LogicalNot | Typeof

  /** Literal values, kept as their source text where the source does. */
  datatype LiteralValue = Undefined | Null | True | False | Number(raw: string) | String(raw: string)

  datatype Property =
    | Computed(expression: Loc<Expression>)
    | Literal(key: string)
    | Binary(key: string)

  datatype ObjectMember =
    | Shorthand(name: string)
    | Literal(property: Loc<Property>, value: Loc<Expression>)
    | Method(property: Loc<Property>, params: seq<Parameter>, body: seq<Loc<Statement>>)

  /** A formal parameter with its optional default value. */
  datatype Parameter = Parameter(name: Loc<string>, defaultValue: Option<Loc<Expression>>)

  /** A class member; the class parser and its serializer are not part of
      this model, so a member is only carried along. */
  datatype ClassMember = ClassMember(isStatic: bool, property: Loc<Property>, value: Loc<Expression>)

  datatype SequenceExpression = SequenceExpression(body: seq<Loc<Expression>>)
  datatype ArrayExpression = ArrayExpression(body: seq<Loc<Expression>>)
  datatype MemberExpression = MemberExpression(obj: Loc<Expression>, property: Loc<string>)
  datatype ComputedMemberExpression = ComputedMemberExpression(obj: Loc<Expression>, property: Loc<Expression>)
  datatype CallExpression = CallExpression(callee: Loc<Expression>, arguments: seq<Loc<Expression>>)
  datatype BinaryExpression = BinaryExpression(operator: OperatorKind, left: Loc<Expression>, right: Loc<Expression>)
  datatype PrefixExpression = PrefixExpression(operator: OperatorKind, operand: Loc<Expression>)
  datatype PostfixExpression = PostfixExpression(operator: OperatorKind, operand: Loc<Expression>)
  datatype ConditionalExpression =
    ConditionalExpression(test: Loc<Expression>, consequent: Loc<Expression>, alternate: Loc<Expression>)
  datatype TemplateExpression =
    TemplateExpression(tag: Option<Loc<Expression>>, expressions: seq<Loc<Expression>>, quasis: seq<Loc<string>>)
  datatype ArrowBody = Expression(expression: Loc<Expression>) | Block(block: Loc<Statement>)
  datatype ArrowExpression = ArrowExpression(params: seq<Parameter>, body: ArrowBody)
  datatype ObjectExpression = ObjectExpression(body: seq<Loc<ObjectMember>>)

  /** `Function<N>`: the name is optional in an expression and always present
      in a function statement. */
  datatype FunctionNode = FunctionNode(name: Option<Loc<string>>, params: seq<Parameter>, body: seq<Loc<Statement>>)

  /** `Class<N>`, named like `FunctionNode`. */
  datatype ClassNode = ClassNode(name: Option<Loc<string>>, superClass: Option<Loc<Expression>>, body: seq<Loc<ClassMember>>)

  datatype Expression =
    | Error
    | Void
    | This
    | Identifier(name: string)
    | Literal(value: LiteralValue)
    | Sequence(sequenceExpr: SequenceExpression)
    | Array(arrayExpr: ArrayExpression)
    | Member(memberExpr: MemberExpression)
    | ComputedMember(computedMemberExpr: ComputedMemberExpression)
    | Call(callExpr: CallExpression)
    | Binary(binaryExpr: BinaryExpression)
    | Prefix(prefixExpr: PrefixExpression)
    | Postfix(postfixExpr: PostfixExpression)
    | Conditional(conditionalExpr: ConditionalExpression)
    | Template(templateExpr: TemplateExpression)
    | Arrow(arrowExpr: ArrowExpression)
    | Object(objectExpr: ObjectExpression)
    | Function(fn: FunctionNode)
    | Class(cls: ClassNode)

  datatype DeclarationKind = Var | Let | Const

  /** What a declarator binds: a plain name or a destructuring pattern. */
  datatype DeclaratorId = Identifier(name: string) | Pattern(pattern: Loc<Expression>)

  datatype Declarator = Declarator(name: DeclaratorId, value: Option<Loc<Expression>>)

  /** Statements. Field names follow the source except where two variants
      would give one name two types (Dafny requires one type per field name):
      a block's list is `statements`, a try's first list `block`, a labeled
      statement's label `name`, a break or continue label `target`, a throw's value `thrown`, a for-loop's
      optional test `condition`, and a switch case's `caseTest`/`caseBody`. */
  datatype Statement =
    | Error
    | Empty
    | Expression(expression: Loc<Expression>)
    | Declaration(kind: DeclarationKind, declarators: seq<Loc<Declarator>>)
    | Return(value: Option<Loc<Expression>>)
    | Break(target: Option<Loc<Expression>>)
    | Continue(target: Option<Loc<Expression>>)
    | Throw(thrown: Loc<Expression>)
    | If(test: Loc<Expression>, consequent: Loc<Statement>, alternate: Option<Loc<Statement>>)
    | While(test: Loc<Expression>, body: Loc<Statement>)
    | Do(body: Loc<Statement>, test: Loc<Expression>)
    | For(init: Option<Loc<Statement>>, condition: Option<Loc<Expression>>,
          update: Option<Loc<Expression>>, body: Loc<Statement>)
    | ForIn(left: Loc<Statement>, right: Loc<Expression>, body: Loc<Statement>)
    | ForOf(left: Loc<Statement>, right: Loc<Expression>, body: Loc<Statement>)
    | Try(block: seq<Loc<Statement>>, error: Loc<Expression>, handler: seq<Loc<Statement>>)
    | Block(statements: seq<Loc<Statement>>)
    | Labeled(name: string, body: Loc<Statement>)
    | Function(fn: FunctionNode)
    | Class(cls: ClassNode)
    | Switch(discriminant: Loc<Expression>, cases: seq<Loc<Statement>>)
    | SwitchCase(caseTest: Option<Loc<Expression>>, caseBody: seq<Loc<Statement>>)

  // ---------------------------------------------------------------------
  // Classification queries
  // ---------------------------------------------------------------------

  /** The kinds that `binding_power` does not rank explicitly: they fall to
      its catch-all arm. Listed here independently of that function. */
  predicate IsAtom(e: Expression) {
    e.Error? || e.Void? || e.This? || e.Identifier? || e.Literal? || e.Array? ||
    e.ComputedMember? || e.Template? || e.Object? || e.Function? || e.Class?
  }

  /** `Expression::binding_power`: how tightly a node binds, as the Pratt
      parser compares it. The operator table of binary and postfix nodes
      (`OperatorKind::binding_power`) is not part of this model and is taken
      as the parameter `operatorPower`. */
  function BindingPower(e: Expression, operatorPower: OperatorKind -> U8): (r: U8)
    ensures !e.Binary? && !e.Postfix? ==> (IsAtom(e) <==> r == 100)
    ensures !e.Binary? && !e.Postfix? ==> r <= 18 || r == 100
  {
    match e
    case Member(_) | Arrow(_) => 18
    case Call(_) => 17
    case Prefix(_) => 15
    case Binary(b) => operatorPower(b.operator)
    case Postfix(p) => operatorPower(p.operator)
    case Conditional(_) => 4
    case Sequence(_) => 0
    case _ => 100
  }

  /** `Expression::is_allowed_as_bare_statement`: whether the node may stand
      as an expression statement without parentheses. */
  predicate IsAllowedAsBareStatement(e: Expression) {
    match e
    case Object(_) | Function(_) | Class(_) => false
    case _ => true
  }

  /** `Property::is_constructor`. */
  predicate IsConstructor(p: Property) {
    match p
    case Literal(key) => key == "constructor"
    case _ => false
  }

  // ---------------------------------------------------------------------
  // The `From` injections into `Expression`
  // ---------------------------------------------------------------------

  function FromName(val: string): Expression { Expression.Identifier(val) }
  function FromLiteral(val: LiteralValue): Expression { Expression.Literal(val) }
  function FromSequence(val: SequenceExpression): Expression { Expression.Sequence(val) }
  function FromArray(val: ArrayExpression): Expression { Expression.Array(val) }
  function FromMember(val: MemberExpression): Expression { Expression.Member(val) }
  function FromComputedMember(val: ComputedMemberExpression): Expression { Expression.ComputedMember(val) }
  function FromCall(val: CallExpression): Expression { Expression.Call(val) }
  function FromBinary(val: BinaryExpression): Expression { Expression.Binary(val) }
  function FromPrefix(val: PrefixExpression): Expression { Expression.Prefix(val) }
  function FromPostfix(val: PostfixExpression): Expression { Expression.Postfix(val) }
  function FromConditional(val: ConditionalExpression): Expression { Expression.Conditional(val) }
  function FromTemplate(val: TemplateExpression): Expression { Expression.Template(val) }
  function FromArrow(val: ArrowExpression): Expression { Expression.Arrow(val) }
  function FromObject(val: ObjectExpression): Expression { Expression.Object(val) }
}

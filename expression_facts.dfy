/** Properties of the expression classification queries and of the `From`
    injections (core/src/ast/expression.rs). */
module ExpressionFacts {
  import opened Ast

  /** The kinds `binding_power` ranks explicitly get their fixed ranks. */
  lemma FixedRanks(e: Expression, operatorPower: OperatorKind -> U8)
    ensures e.Member? || e.Arrow? ==> BindingPower(e, operatorPower) == 18
    ensures e.Call? ==> BindingPower(e, operatorPower) == 17
    ensures e.Prefix? ==> BindingPower(e, operatorPower) == 15
    ensures e.Conditional? ==> BindingPower(e, operatorPower) == 4
    ensures e.Sequence? ==> BindingPower(e, operatorPower) == 0
  {
  }

  /** Binary and postfix nodes take the power of their operator, whatever
      their operands are. */
  lemma OperatorNodesIgnoreOperands(b1: BinaryExpression, b2: BinaryExpression,
                                    p1: PostfixExpression, p2: PostfixExpression,
                                    operatorPower: OperatorKind -> U8)
    ensures BindingPower(Expression.Binary(b1), operatorPower) == operatorPower(b1.operator)
    ensures BindingPower(Expression.Postfix(p1), operatorPower) == operatorPower(p1.operator)
    ensures b1.operator == b2.operator ==>
      BindingPower(Expression.Binary(b1), operatorPower) == BindingPower(Expression.Binary(b2), operatorPower)
    ensures p1.operator == p2.operator ==>
      BindingPower(Expression.Postfix(p1), operatorPower) == BindingPower(Expression.Postfix(p2), operatorPower)
  {
  }

  /** Every kind without an explicit rank binds strictly tighter than every
      kind with a fixed rank. */
  lemma AtomsBindTightest(a: Expression, e: Expression, operatorPower: OperatorKind -> U8)
    requires IsAtom(a)
    requires !IsAtom(e) && !e.Binary? && !e.Postfix?
    ensures BindingPower(a, operatorPower) == 100
    ensures BindingPower(a, operatorPower) > BindingPower(e, operatorPower)
  {
  }

  /** The fixed ranks are strictly ordered:
      member/arrow > call > prefix > conditional > sequence. */
  lemma FixedRanksOrdered(m: Expression, c: Expression, p: Expression, q: Expression, s: Expression,
                          operatorPower: OperatorKind -> U8)
    requires m.Member? || m.Arrow?
    requires c.Call? && p.Prefix? && q.Conditional? && s.Sequence?
    ensures BindingPower(m, operatorPower) > BindingPower(c, operatorPower)
    ensures BindingPower(c, operatorPower) > BindingPower(p, operatorPower)
    ensures BindingPower(p, operatorPower) > BindingPower(q, operatorPower)
    ensures BindingPower(q, operatorPower) > BindingPower(s, operatorPower)
  {
  }

  /** Object, function and class expressions are exactly the ones that may
      not stand bare as a statement. */
  lemma BareStatementExceptions(e: Expression)
    ensures !IsAllowedAsBareStatement(e) <==> e.Object? || e.Function? || e.Class?
  {
  }

  /** Only the literal key "constructor" names a constructor; computed and
      binary keys never do. */
  lemma ConstructorKeyExactly(p: Property)
    ensures IsConstructor(p) <==> p == Property.Literal("constructor")
    ensures p.Computed? || p.Binary? ==> !IsConstructor(p)
  {
  }

  /** Each `From` injection wraps its payload unchanged in the matching
      variant: the variant's field gives the payload back. */
  lemma FromWrapsPayload(name: string, lit: LiteralValue, sq: SequenceExpression, arr: ArrayExpression,
                         mem: MemberExpression, cmem: ComputedMemberExpression, call: CallExpression,
                         bin: BinaryExpression, pre: PrefixExpression, post: PostfixExpression,
                         cond: ConditionalExpression, tpl: TemplateExpression, arrow: ArrowExpression,
                         obj: ObjectExpression)
    ensures FromName(name).Identifier? && FromName(name).name == name
    ensures FromLiteral(lit).Literal? && FromLiteral(lit).value == lit
    ensures FromSequence(sq).Sequence? && FromSequence(sq).sequenceExpr == sq
    ensures FromArray(arr).Array? && FromArray(arr).arrayExpr == arr
    ensures FromMember(mem).Member? && FromMember(mem).memberExpr == mem
    ensures FromComputedMember(cmem).ComputedMember? && FromComputedMember(cmem).computedMemberExpr == cmem
    ensures FromCall(call).Call? && FromCall(call).callExpr == call
    ensures FromBinary(bin).Binary? && FromBinary(bin).binaryExpr == bin
    ensures FromPrefix(pre).Prefix? && FromPrefix(pre).prefixExpr == pre
    ensures FromPostfix(post).Postfix? && FromPostfix(post).postfixExpr == post
    ensures FromConditional(cond).Conditional? && FromConditional(cond).conditionalExpr == cond
    ensures FromTemplate(tpl).Template? && FromTemplate(tpl).templateExpr == tpl
    ensures FromArrow(arrow).Arrow? && FromArrow(arrow).arrowExpr == arrow
    ensures FromObject(obj).Object? && FromObject(obj).objectExpr == obj
  {
  }
}

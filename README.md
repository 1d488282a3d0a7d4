# ratel-core statement front end in Dafny

This project models three pieces of the ratel-core JavaScript front end and
proves what they promise:

- **The expression AST and its classification queries** (`ast.dfy`,
  `expression_facts.dfy`). It covers:
  - the closed union of expression kinds and the `From` injections into it;
  - `binding_power`, the rank the Pratt parser compares;
  - `is_allowed_as_bare_statement`;
  - `Property::is_constructor`.
- **The recursive-descent statement parser** (`tokens.dfy`, `grammar.dfy`,
  `parser.dfy`, `grammar_facts.dfy`, `grammar_examples.dfy`).
  - `Parsing.Parser` is a class over the lexer's output, with a cursor that
    each method advances (`modifies this`), as the source's `&mut self`
    methods do.
  - Every method is proved to return the node, and leave the cursor,
    described by a pure grammar function of the same name in `Grammar`. The
    declarator loop is a `while` loop with its invariant.
  - What the source promises is proved about the grammar functions:
    - dispatch on the leading token;
    - labels;
    - automatic semicolon insertion after `return` and `break` (ECMA-262,
      section 11.9.1);
    - the declarator list;
    - `if`/`else`;
    - the for-in rewrites of `for` heads;
    - required names of function and class statements;
    - the nodes built by `while`, `do`, `throw` and `try`.

    Ground examples restate the unit tests for expression statements,
    `var` lists, `if`/`else`, labels, `break`, `while`, `do`, `throw`,
    `try`, the empty `for`, and functions and classes with and without
    names. The destructuring tests and the classic `for` test are not
    restated; "## Left out" says why.
- **The JSON generator for statements** (`astgen.dfy`, `astgen_facts.dfy`).
  - Each ESTree object is the ordered list of key/value pairs the
    serializer writes.
  - Keys and node-type names are enumerations. `KeyText` and `TypeText`
    give their exact text.
  - The lemmas prove:
    - the common layout (`type`, the kind's keys, then `start` and `end`);
    - exactly when generation succeeds;
    - the synthesized BlockStatement and CatchClause wrappers;
    - how absent children are written;
    - that no key is written twice.

Failures are values. The parser's `unexpected_token!` family becomes
`Err(UnexpectedToken(lexeme))`, and the first error aborts the parse. The
generator's two panics become `Err(ModuleContainsErrors)` and
`Err(UnimplementedPattern)`.

## Model

| member | source | states |
|---|---|---|
| Ast.BindingPower | core/src/ast/expression.rs:163-182 | A node that is neither binary nor postfix gets 100 exactly when it is one of the kinds without an explicit rank; every other such node ranks 18 or lower |
| ExpressionFacts.FixedRanks | core/src/ast/expression.rs:167-178 | Member and Arrow rank 18, Call 17, Prefix 15, Conditional 4, Sequence 0 |
| ExpressionFacts.OperatorNodesIgnoreOperands | core/src/ast/expression.rs:173-174 | Binary and Postfix nodes take their operator's power; two nodes with the same operator rank equally, whatever their operands |
| ExpressionFacts.AtomsBindTightest | core/src/ast/expression.rs:180 | Every kind without an explicit rank gets 100, strictly above every explicitly ranked kind |
| ExpressionFacts.FixedRanksOrdered | core/src/ast/expression.rs:165-179 | Member/Arrow > Call > Prefix > Conditional > Sequence, strictly |
| ExpressionFacts.BareStatementExceptions | core/src/ast/expression.rs:185-194 | A node may not stand bare as a statement exactly when it is an Object, Function or Class expression |
| ExpressionFacts.ConstructorKeyExactly | core/src/ast/expression.rs:197-205 | A property is a constructor exactly when it is the literal key "constructor"; computed and binary keys never are |
| ExpressionFacts.FromWrapsPayload | core/src/ast/expression.rs:127-159 | A string becomes an Identifier of that same string; every other `From` conversion puts its payload unchanged in the matching variant |
| Grammar.ExpectSemicolon | core/src/parser/statement.rs:51 | A statement end succeeds exactly when the cursor is at an explicit or implicit semicolon; the cursor never leaves the input |
| Grammar.ParseStatement | core/src/parser/statement.rs:10-28 | The end of the program is never a statement; a parse never moves the cursor back or past the input |
| Grammar.ExpectStatement | core/src/parser/statement.rs:31-34 | A statement consumes at least its leading token |
| Grammar.BlockStatement | core/src/parser/statement.rs:37-41 | A block consumes at least its closing brace |
| Grammar.ExpressionStatement | core/src/parser/statement.rs:44-54 | An expression statement never starts at the end of the program and stays within the input |
| Grammar.LabeledOrExpressionStatement | core/src/parser/statement.rs:57-78 | The cursor never moves back or past the input |
| Grammar.FunctionStatement | core/src/parser/statement.rs:81-88 | A function statement consumes at least its name |
| Grammar.ClassStatement | core/src/parser/statement.rs:91-98 | A class statement consumes at least its name |
| Grammar.ReturnStatement | core/src/parser/statement.rs:101-122 | The cursor never moves back or past the input |
| Grammar.VariableDeclarationStatement | core/src/parser/statement.rs:125-134 | A declaration consumes at least one token after its keyword |
| Grammar.VariableDeclarator | core/src/parser/statement.rs:137-160 | A declarator consumes at least its name |
| Grammar.DeclaratorName | core/src/parser/statement.rs:138-143 | A declarator name consumes at least one token |
| Grammar.VariableDeclarators | core/src/parser/statement.rs:163-179 | The declarator list consumes at least one token |
| Grammar.DeclaratorsRest | core/src/parser/statement.rs:166-178 | The declarator loop never moves the cursor back |
| Grammar.BreakStatement | core/src/parser/statement.rs:182-201 | The cursor never moves back or past the input |
| Grammar.ThrowStatement | core/src/parser/statement.rs:204-212 | A throw consumes at least its operand; its node is stated by GrammarFacts.ThrowShape |
| Grammar.TryStatement | core/src/parser/statement.rs:215-232 | A try consumes at least its blocks; its node is stated by GrammarFacts.TryShape |
| Grammar.IfStatement | core/src/parser/statement.rs:235-259 | An if consumes at least its head |
| Grammar.WhileStatement | core/src/parser/statement.rs:262-275 | A while consumes at least its head; its node is stated by GrammarFacts.WhileShape |
| Grammar.DoStatement | core/src/parser/statement.rs:278-288 | A do-while consumes at least its body; its node is stated by GrammarFacts.DoShape |
| Grammar.ForStatement | core/src/parser/statement.rs:291-296 | A for consumes at least its head |
| Grammar.ForDeclarationHead | core/src/parser/statement.rs:297-321 | A declaration head consumes at least one token |
| Grammar.ForExpressionHead | core/src/parser/statement.rs:323-344 | An expression head consumes at least one token |
| Grammar.ForInit | core/src/parser/statement.rs:347-354 | What follows an initializer consumes at least one token |
| Grammar.ForClause | core/src/parser/statement.rs:356-374 | A clause of a classic for head never moves the cursor back |
| Grammar.ForClauses | core/src/parser/statement.rs:356-384 | The rest of a classic for head consumes at least one token |
| Grammar.ForInStatementFromParts | core/src/parser/statement.rs:386-396 | A for-in built from parts consumes at least its `)` |
| Grammar.ForInStatement | core/src/parser/statement.rs:398-410 | A for-in consumes at least its right side |
| Grammar.ForOfStatement | core/src/parser/statement.rs:412-424 | A for-of consumes at least its right side |
| Parsing.Parser.constructor | core/src/parser/statement.rs:8 | A parser starts at the first lexeme |
| Parsing.Parser.Expect | core/src/parser/statement.rs:217-218 | `expect!` consumes one lexeme and succeeds exactly when it is the expected token, as Grammar.Expect describes |
| Parsing.Parser.ExpectIdentifier | core/src/parser/statement.rs:82 | `expect_identifier!` agrees with Grammar.ExpectIdentifier |
| Parsing.Parser.ExpectSemicolon | core/src/parser/statement.rs:51 | `expect_semicolon!` agrees with Grammar.ExpectSemicolon: an explicit `;` is consumed, an implicit one is not |
| Parsing.Parser.ParseStatement | core/src/parser/statement.rs:10-28 | Returns the statement Grammar.ParseStatement describes and leaves the cursor where it does, or fails with the same token |
| Parsing.Parser.ExpectStatement | core/src/parser/statement.rs:31-34 | Agrees with Grammar.ExpectStatement |
| Parsing.Parser.BlockStatement | core/src/parser/statement.rs:37-41 | Agrees with Grammar.BlockStatement |
| Parsing.Parser.BlockBodyTail | core/src/parser/statement.rs:39 | The statement loop up to `}` agrees with Grammar.BlockBodyTail |
| Parsing.Parser.BlockBody | core/src/parser/statement.rs:216 | Agrees with Grammar.BlockBody |
| Parsing.Parser.ExpressionStatement | core/src/parser/statement.rs:44-54 | Agrees with Grammar.ExpressionStatement |
| Parsing.Parser.LabeledOrExpressionStatement | core/src/parser/statement.rs:57-78 | Agrees with Grammar.LabeledOrExpressionStatement |
| Parsing.Parser.FunctionStatement | core/src/parser/statement.rs:81-88 | Agrees with Grammar.FunctionStatement |
| Parsing.Parser.FunctionTail | core/src/parser/statement.rs:86 | Agrees with Grammar.FunctionTail |
| Parsing.Parser.ClassStatement | core/src/parser/statement.rs:91-98 | Agrees with Grammar.ClassStatement |
| Parsing.Parser.ClassTail | core/src/parser/statement.rs:96 | Agrees with Grammar.ClassTail |
| Parsing.Parser.ReturnStatement | core/src/parser/statement.rs:101-122 | Agrees with Grammar.ReturnStatement |
| Parsing.Parser.VariableDeclarationStatement | core/src/parser/statement.rs:125-134 | Agrees with Grammar.VariableDeclarationStatement |
| Parsing.Parser.VariableDeclarator | core/src/parser/statement.rs:137-160 | Agrees with Grammar.VariableDeclarator |
| Parsing.Parser.VariableDeclarators | core/src/parser/statement.rs:163-179 | The declarator loop agrees with Grammar.VariableDeclarators; its invariant ties the declarators read so far to Grammar.DeclaratorsRest |
| Parsing.Parser.BreakStatement | core/src/parser/statement.rs:182-201 | Agrees with Grammar.BreakStatement |
| Parsing.Parser.ThrowStatement | core/src/parser/statement.rs:204-212 | Agrees with Grammar.ThrowStatement |
| Parsing.Parser.TryStatement | core/src/parser/statement.rs:215-232 | Agrees with Grammar.TryStatement |
| Parsing.Parser.IfStatement | core/src/parser/statement.rs:235-259 | Agrees with Grammar.IfStatement |
| Parsing.Parser.WhileStatement | core/src/parser/statement.rs:262-275 | Agrees with Grammar.WhileStatement |
| Parsing.Parser.DoStatement | core/src/parser/statement.rs:278-288 | Agrees with Grammar.DoStatement |
| Parsing.Parser.ForStatement | core/src/parser/statement.rs:291-296 | Agrees with Grammar.ForStatement |
| Parsing.Parser.ForDeclarationHead | core/src/parser/statement.rs:297-321 | Agrees with Grammar.ForDeclarationHead |
| Parsing.Parser.ForExpressionHead | core/src/parser/statement.rs:323-344 | Agrees with Grammar.ForExpressionHead |
| Parsing.Parser.ForInit | core/src/parser/statement.rs:347-354 | Agrees with Grammar.ForInit |
| Parsing.Parser.ForClause | core/src/parser/statement.rs:356-374 | Agrees with Grammar.ForClause |
| Parsing.Parser.ForClauses | core/src/parser/statement.rs:356-384 | Agrees with Grammar.ForClauses |
| Parsing.Parser.ForInStatementFromParts | core/src/parser/statement.rs:386-396 | Agrees with Grammar.ForInStatementFromParts |
| Parsing.Parser.ForInStatement | core/src/parser/statement.rs:398-410 | Agrees with Grammar.ForInStatement |
| Parsing.Parser.ForOfStatement | core/src/parser/statement.rs:412-424 | Agrees with Grammar.ForOfStatement |
| GrammarFacts.DispatchByLeadingToken | core/src/parser/statement.rs:10-28 | The leading token alone decides the statement kind: `;` empty, `{` block, a declaration keyword its declaration, each keyword its own statement, an identifier a labeled or expression statement, anything else an expression statement; the end of the program is never a statement |
| GrammarFacts.ForKinds | core/src/parser/statement.rs:291-384 | A for statement is always a for, for-in or for-of loop |
| GrammarFacts.ForInitKinds | core/src/parser/statement.rs:347-354 | Whatever follows an initializer, the result is a loop |
| GrammarFacts.LabeledOrExpression | core/src/parser/statement.rs:57-78 | An identifier followed by `:` labels the next full statement, which is the body; otherwise the identifier is the leftmost operand of an expression statement |
| GrammarFacts.ExpressionStatementSpan | core/src/parser/statement.rs:44-54 | An expression statement spans exactly its expression and ends where a statement may end |
| GrammarFacts.ReturnAsi | core/src/parser/statement.rs:101-122 | After `return`: an explicit `;` gives no value and is consumed; an implicit one gives no value and consumes nothing; otherwise the value is the expression that follows |
| GrammarFacts.BreakAsi | core/src/parser/statement.rs:182-201 | After `break`: an explicit or implicit statement end gives no label; otherwise a non-identifier is an error and the label is the identifier that follows |
| GrammarFacts.DeclaratorShape | core/src/parser/statement.rs:137-160 | A declarator name starts with `{`, `[` or an identifier, and anything else is an unexpected token; an initializer is present exactly when `=` follows the name |
| GrammarFacts.DeclaratorsRestExtends | core/src/parser/statement.rs:166-178 | The declarator loop only appends to the list it has built |
| GrammarFacts.DeclaratorsRestMeaning | core/src/parser/statement.rs:166-178 | The declarator loop yields exactly the comma-separated declarators that follow, in source order, and ends where no comma follows |
| GrammarFacts.DeclaratorList | core/src/parser/statement.rs:163-179 | A declarator list is never empty: it is the first declarator, then the comma-separated ones, in source order (both directions) |
| GrammarFacts.IfElse | core/src/parser/statement.rs:235-259 | An if has an alternate exactly when `else` follows its consequent; the alternate is the statement after that `else` |
| GrammarFacts.ForEmptyHead | core/src/parser/statement.rs:291-384 | `for (;;)` has no init, test or update, and its body is the statement that follows |
| GrammarFacts.ForInFromExpression | core/src/parser/statement.rs:326-337 | A head that is one `in` expression gives a for-in loop whose left and right are that expression's operands |
| GrammarFacts.ForInFromDeclaration | core/src/parser/statement.rs:297-314 | A head declaring one variable initialized with an `in` expression gives a for-in loop over that expression's right operand |
| GrammarFacts.ForInitFollowers | core/src/parser/statement.rs:347-354 | After an initializer, `in` gives for-in, the identifier `of` gives for-of, `;` gives a classic for keeping the initializer, and any other token is an error |
| GrammarFacts.FunctionNeedsName | core/src/parser/statement.rs:81-88 | Without an identifier after `function` the parse fails at that token; with one, it names the function |
| GrammarFacts.ClassNeedsName | core/src/parser/statement.rs:91-98 | Without an identifier after `class` the parse fails at that token; with one, it names the class |
| GrammarFacts.WhileShape | core/src/parser/statement.rs:262-275 | Without `(` after `while` the parse fails at that token; a parsed while holds the expression inside the parentheses as its test and the next full statement as its body, and ends where the body ends |
| GrammarFacts.DoShape | core/src/parser/statement.rs:278-288 | A body not followed by `while` fails at that token; a parsed do-while holds the body and the expression after `while`, and ends right after that expression with no statement end required |
| GrammarFacts.ThrowShape | core/src/parser/statement.rs:204-212 | A throw parses exactly when its operand parses and a statement may end after it, and the node holds that operand |
| GrammarFacts.TryShape | core/src/parser/statement.rs:215-232 | A block not followed by `catch` fails at that token; a parsed try holds the first block, the identifier in `catch ( … )` as its error parameter and the second block as its handler, and a statement may end after the handler |
| GrammarExamples.PrimaryAlone | core/src/parser/statement.rs:44-54 | An identifier or literal that no operator follows is a whole expression with that lexeme's span |
| GrammarExamples.IdentifierStatement | core/src/parser/statement.rs:57-78 | `foo;` is an expression statement of the identifier |
| GrammarExamples.VarDeclarationExample | core/src/parser/statement.rs:664-691 | `var x, y, z = 42;` gives three declarators in order, only the last initialized |
| GrammarExamples.IfElseExample | core/src/parser/statement.rs:494-517 | `if (true) foo; else { bar; }` has the block as its alternate |
| GrammarExamples.LabeledBlockExample | core/src/parser/statement.rs:453-473 | `foobar: { true }` is a labeled block |
| GrammarExamples.BreakLabelExample | core/src/parser/statement.rs:592-605 | `break foo;` carries the label `foo` |
| GrammarExamples.EmptyForExample | core/src/parser/statement.rs:790-808 | `for (;;) {}` has no init, test or update |
| GrammarExamples.FunctionExample | core/src/parser/statement.rs:810-827 | `function foo() {}` has no parameters and an empty body |
| GrammarExamples.ClassExample | core/src/parser/statement.rs:834-851 | `class Foo {}` has no superclass and no members |
| GrammarExamples.WhileExample | core/src/parser/statement.rs:519-534 | `while (true) foo;` has the literal `true` as its test and `foo;` as its body |
| GrammarExamples.DoExample | core/src/parser/statement.rs:559-574 | `do foo; while (true)` has `foo;` as its body and `true` as its test |
| GrammarExamples.ThrowExample | core/src/parser/statement.rs:607-620 | `throw '3'` throws the string literal `'3'`, ended by the end of input |
| GrammarExamples.TryEmptyExample | core/src/parser/statement.rs:622-637 | `try {} catch (err) {}` has two empty blocks and `err` as its parameter |
| GrammarExamples.SingleStatementBlock | core/src/parser/statement.rs:57-78 | `{ foo; }` is a block body holding the one expression statement |
| GrammarExamples.TryExample | core/src/parser/statement.rs:639-662 | `try { foo; } catch (err) { bar; }` holds `foo;` in its block and `bar;` in its handler |
| GrammarExamples.NamelessExamples | core/src/parser/statement.rs:829-832 | `function() {}` and `class {}` fail at the token where the name belongs |
| AstGen.SerializeDeclaratorId | core/src/astgen/statement.rs:59-85 | Succeeds exactly for identifiers and array patterns, and otherwise fails as unimplemented. An identifier is an Identifier expression over the given span. An array pattern is an ArrayPattern with keys `type`, `elements`, `start`, `end` (corrected, see Findings) |
| AstGen.SerializeDeclaratorIdAsWritten | core/src/astgen/statement.rs:70-77 | The arm as written succeeds on the same ids and agrees with the corrected one on identifiers |
| AstGen.SerializeDeclarator | core/src/astgen/statement.rs:44-57 | Keys `type`, `id`, `init`, `start`, `end`. The id is written over the declarator's own span. `init` is null exactly when there is no initializer. Succeeds exactly when the id is supported (corrected arms, see Findings) |
| AstGen.SerializeDeclarators | core/src/astgen/statement.rs:106-112 | Every declarator is written, in order |
| AstGen.SerializeStatement | core/src/astgen/statement.rs:87-254 | An Error statement fails with "module contains errors"; every success is an object (corrected arms, see Findings) |
| AstGen.StatementFields | core/src/astgen/statement.rs:93-248 | Every arm starts with `type`, set to its kind's ESTree type |
| AstGen.NestedFields | core/src/astgen/statement.rs:131-202 | The arms with nested statements start with their `type` |
| AstGen.ListFields | core/src/astgen/statement.rs:178-247 | The arms with statement lists start with their `type` (corrected arms, see Findings) |
| AstGen.SerializeOptionalStatement | core/src/astgen/statement.rs:131-161 | An absent statement is null; a present one is an object |
| AstGen.SerializeStatements | core/src/astgen/statement.rs:190-195 | A list is written element for element: on success it has one entry per statement, and entry i is the serialization of statement i |
| AstGen.SerializeFunctionBodyAsWritten | core/src/astgen/statement.rs:209-217 | The body arm as written succeeds exactly when every body statement does, and equals the corrected arm on every body other than a lone block |
| AstGenFacts.SpanLast | core/src/astgen/statement.rs:250-252 | A statement's object is its arm's fields followed by `start` and `end` |
| AstGenFacts.LeafKeys | core/src/astgen/statement.rs:95-130 | The leaf arms write `type` and then their own keys in order |
| AstGenFacts.NestedKeys | core/src/astgen/statement.rs:131-202 | The nested arms write `type` and then their own keys in order |
| AstGenFacts.ListKeys | core/src/astgen/statement.rs:178-247 | The list arms write `type` and then their own keys in order |
| AstGenFacts.TryOrFunctionKeys | core/src/astgen/statement.rs:178-219 | The try and function arms write `type` and then their own keys in order |
| AstGenFacts.BlockOrSwitchKeys | core/src/astgen/statement.rs:190-247 | The block, switch and case arms write `type` and then their own keys in order |
| AstGenFacts.StatementLayout | core/src/astgen/statement.rs:93-252 | Every non-Error statement object is `type` (its kind's ESTree name), then its kind's keys in order, then `start` and `end` from the node's span |
| AstGenFacts.StatementKeysDistinct | core/src/astgen/statement.rs:93-252 | No key is written twice in a statement object |
| AstGenFacts.OwnKeysDistinct | core/src/astgen/statement.rs:93-252 | The keys of each kind, framed by `type`, `start` and `end`, are pairwise distinct |
| AstGenFacts.DeclaratorsOk | core/src/astgen/statement.rs:106-112 | A declarator list is written exactly when every id is supported |
| AstGenFacts.StatementOk | core/src/astgen/statement.rs:78-80 | Generation succeeds exactly on trees with no Error node and no unsupported declarator pattern |
| AstGenFacts.NestedOk | core/src/astgen/statement.rs:131-202 | A nested arm succeeds exactly when its children do |
| AstGenFacts.ListOk | core/src/astgen/statement.rs:178-247 | A list arm succeeds exactly when every listed statement does |
| AstGenFacts.StatementsOk | core/src/astgen/statement.rs:190-195 | A statement list is written exactly when every statement in it can be |
| AstGenFacts.DeclarationsInOrder | core/src/astgen/statement.rs:106-112 | A declaration writes its kind's keyword, then every declarator in source order |
| AstGenFacts.TryWrappers | core/src/astgen/statement.rs:178-189 | `block` is a BlockStatement over the try's span. `handler` is a CatchClause over the same span, with `param` and a BlockStatement `body` over that span. Succeeds exactly when both lists do |
| AstGenFacts.FunctionBodyIsBlock | core/src/astgen/statement.rs:203-219 | `id` is the name or null and `params` the parameters in order. `body` is a BlockStatement over the function statement's span (corrected, see Findings) |
| AstGenFacts.AbsentAlternateIsNull | core/src/astgen/statement.rs:131-138 | `alternate` is null exactly when there is no else branch |
| AstGenFacts.AbsentForPartsAreNull | core/src/astgen/statement.rs:153-161 | `init`, `test` and `update` are each null exactly when that part of the head is absent |
| AstGenFacts.AbsentOperandIsNull | core/src/astgen/statement.rs:113-124 | A bare return, break or continue writes null as its argument or label, and a default case writes null as its test, each exactly when absent |
| AstGenFacts.ArrayPatternAsWritten | core/src/astgen/statement.rs:74 | As written, an array pattern has keys `type`, `elements`, `self`, `end` and no `start`; the corrected one has `start` |
| AstGenFacts.OnlyBlockBodyAsWritten | core/src/astgen/statement.rs:209-212 | As written, a function whose body is one block gets an array, not a node, as `body`; the corrected arm writes a BlockStatement over the function's span |

## Left out

- The lexer is not part of this model. Its output is an input sequence of
  lexemes, each with its span and a flag for a preceding line terminator.
  `peek`, `next`, `consume` and `asi` are written from what the parser
  needs. `asi` follows ECMA-262, section 11.9.1: `;` is explicit, and `}`,
  the end of input and a preceding line break are implicit.
- The expression parser is not part of this model. Its stand-in parses a
  primary (identifier, literal, `this`, parenthesised expression),
  optionally followed by one infix operator (`in` included) and a second
  primary. Sequences, precedence climbing, object and array literals,
  templates and arrows are not parsed.
- `function`, `class`, `block_body` and `block_body_tail` live in other
  files. Their stand-ins are:
  - parameters: a list of identifiers;
  - function bodies: a block;
  - classes: only an empty body;
  - block bodies: statements up to `}`.

  Object and array patterns are identifier lists.
- `OperatorKind::binding_power` is not part of this model. It is the
  parameter `operatorPower`, and the properties hold for every table.
- Arena allocation, `List`/`ListBuilder` and lifetimes become plain
  sequences and datatypes.
- The serde machinery is not modelled; each object is its ordered field
  list. This includes the serializers for expressions, names, parameters
  and class bodies, which are opaque leaves in `Json`.
- Keys and node types are enumerations, with `KeyText` and `TypeText`
  giving the text the source writes.
- The layout of `in_loc` (type, fields, start, end) is taken from the
  expected output in the file's tests.
- The text of a declaration kind (`var`, `let`, `const`) is taken from the
  same tests.
- Most parsed statements sit at (0, 0) as the source places them; no span
  containment across the tree is modelled.
- A parse method that fails leaves its cursor unspecified. The first error
  ends the parse, so nothing reads the cursor afterwards.
- The statement kinds the parser here never builds are serialized but not
  parsed: `continue`, `switch` and `case`. The parser that builds them is
  not part of this model.
- The AST shapes of `core/src/ast/expression.rs` are used throughout (tuple
  variants wrapping structs). The parser and generator files are written
  against an older revision with struct variants.
- Spans built from identifiers take the identifier lexeme's own span. The
  source allocates them with `in_loc`/`alloc_in_loc`, at the lexer's
  position at that moment. The lexer is not part of this model, so that
  position is not either. A declarator's identifier name
  (core/src/parser/statement.rs:141) and the `catch` parameter (lines
  220-221) are allocated right after the identifier is read. The `break`
  label (lines 190-194) is allocated only after the statement end has been
  consumed, so after an explicit `;` its span in the source may be that of
  the `;` rather than of the label.
- Prefix and postfix operators (`++`, `--`, `!`, `typeof`) are not parsed
  by the expression stand-in. So the classic `for` test
  (core/src/parser/statement.rs:755-788, with `i++`) is not restated as an
  example; `GrammarFacts.ForInitFollowers` states its `;` branch.
- Array and object literals are not parsed by the stand-in. So the
  destructuring tests (core/src/parser/statement.rs:693-753), whose
  initializers are such literals, are not restated as examples;
  `GrammarFacts.DeclaratorShape` states how their patterns begin.
- AstGen.SerializeStatement, AstGen.SerializeDeclarator and AstGen.ListFields
  model the generator with the two defects under "## Findings" corrected,
  as does everything built on them. The code as written is modelled only by
  the two as-written members named there, for the arms they replace.
- In the source, a leading `;` makes an Empty statement at the current
  token's span (`in_loc`). Here it is at the span of the `;` lexeme.

## Findings

| source | as written | input that shows it | evidently intended | confidence | as-written member | corrected member |
|---|---|---|---|---|---|---|
| core/src/astgen/statement.rs:74 | an array-pattern declarator id writes its start offset under the key `self` | `let [a] = b;` gives an ArrayPattern with keys `type`, `elements`, `self`, `end` and no `start` | the key `start`, as every other node has | high, not executed | AstGenFacts.ArrayPatternAsWritten | AstGen.SerializeDeclaratorId |
| core/src/astgen/statement.rs:209-212 | a function body whose only statement is a block is written as the statement list itself, an array | `function f() { {} }` gives `body: [ {BlockStatement} ]` | `body` is always a BlockStatement node (ESTree's function body), as in the other branch and in the tests at lines 794-871 | medium, not executed | AstGenFacts.OnlyBlockBodyAsWritten | AstGenFacts.FunctionBodyIsBlock |

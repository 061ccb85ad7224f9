# es62py: the `JsVisitor` lowering, in Dafny

es62py translates JavaScript to Python. esprima parses the JavaScript into a syntax
tree, and the `JsVisitor` class in `main.py` walks that tree. Each `visit_*` rule returns
the Python text for one node. Along the way the rules update five fields of the
visitor:

- the indentation level;
- the `in_class` flag, which makes `this` become `self`;
- the counter `i`, which numbers synthesized names;
- the hoist buffer `heads`, which collects function definitions and destructuring
  copies that must come before the statement using them;
- the saved buffer `oldHeads`.

The model has these parts:

- `ast.dfy` (module `Ast`) holds the syntax tree. It has one constructor per esprima
  node class that the visitor has a rule for. The attributes are the ones those rules
  read.
- `tokens.dfy` (module `Tokens`) holds the rewrite tables. These cover:
  - identifier renaming (`global` becomes `globals`, `Error` becomes `Exception`);
  - operator tokens (`&&` becomes `and`, `++` becomes `+=1`, and so on);
  - literal text;
  - the synthesized names `_anonymous_func_<n>` and `_temp_<n>`.
- `strings.dfy` (module `Strings`) holds Python's string operations written over
  `seq<char>`: `"    " * n`, `str.join`, `str(int)`, `repr(str)` and `str(list)`.
- `lowering.dfy` (module `Lowering`) is the specification. Each rule is a function
  from a node and a `Ctx` value to a `Lowered` value. `Ctx` holds the five fields.
  `Lowered` holds the returned text and the fields after the visit. Every such
  function is proved to keep `Grows`:
  - the indentation level comes back to where it was;
  - the counter never goes back;
  - `heads` is only appended to;
  - `in_class` is only ever switched off.
- `visitor.dfy` (module `Visitor`) holds the class `JsVisitor`. It has the same five
  fields and one method per rule. The methods update the fields in place: `indent`,
  `dedent`, `setHeads`, `randnum` and `heads.append` are methods with `modifies`
  clauses. Each visit method is proved to return exactly the text its `Lowering`
  function gives, and to leave the fields in exactly the state that function gives.
  So everything proved about `Lowering` holds of the class.
- `properties.dfy` (module `Properties`) holds lemmas about the lowering. They cover:
  - the rewrite tables: their exact domains, and that they are idempotent;
  - names: synthesized function names are fresh and pairwise distinct within a call,
    and property-function names can collide;
  - function literals: a literal is hoisted into the active buffer as a decorated
    `def`, and a function declaration restores the buffer it found;
  - destructuring: an object pattern expands into the temporary, one copy line per
    key, and the `str()` of the tail list;
  - statement shapes the code produces on purpose or by accident: `do … while` lowers
    as `while`, an `else if` arm vanishes, `finally` has no keyword, `default:` arms,
    and `return x++` becomes `x+=1` and then `return x`;
  - template literals: their exact text;
  - the script: its layout, with the preamble imports first.

## Model

| member | source | states |
|---|---|---|
| Strings.IndentText | main.py:46-47 | `"    " * level` is four spaces per level. It is empty at or below level zero. |
| Strings.IntToString | main.py:56-58 | `str(n)` of a counter value is a non-empty decimal numeral. It has a leading `-` exactly when `n < 0`. |
| Strings.NatToStringInjective | main.py:104-105 | Distinct natural numbers print as distinct numerals. |
| Strings.IntToStringInjective | main.py:104-105 | Distinct integers print as distinct texts, so names that differ only in the number differ. |
| Strings.PyRepr | main.py:180-181 | `repr` of a string is enclosed in the quote character Python chooses for it. |
| Strings.ReprOfPlain | main.py:180-181 | A string without quotes, backslashes or control characters is printed between single quotes, otherwise unchanged. |
| Lowering.Lower | main.py:60-61 | Visiting any node keeps `Grows`: the indentation level is restored, the counter is monotone, `heads` is only extended, and `in_class` is never switched on. |
| Lowering.LowerExpression | main.py:72-78 | The expression and pattern rules keep `Grows`. |
| Lowering.LowerStatement | main.py:311-321 | The statement rules keep `Grows`. |
| Lowering.LowerScript | main.py:63-67 | visit_Script keeps `Grows`. |
| Lowering.LowerList | main.py:63-67 | Visiting a sequence of nodes in order gives one text per node and keeps `Grows`. |
| Lowering.LowerOpt | main.py:482-492 | Visiting a child that may be absent keeps `Grows`. The caller gives the absent text: `None` for the `for` parts and the catch parameter, the empty text for an array elision (main.py:386). |
| Lowering.LowerQuasis | main.py:186-193 | The template loop keeps `Grows`. |
| Lowering.LowerElements | main.py:385-386 | An array pattern gives one text per element, elisions included, and keeps `Grows`. |
| Lowering.LowerObject | main.py:388-411 | An object literal or pattern keeps `Grows`. |
| Lowering.LowerProps | main.py:391-411 | One text per property, and `Grows`. |
| Lowering.LowerProp | main.py:413-425 | A property, or a `**rest` entry, keeps `Grows`. |
| Lowering.LowerFunctionExpression | main.py:99-114 | A function literal keeps `Grows`. |
| Lowering.LowerFunctionBody | main.py:88-97 | A function body keeps `Grows`. It leaves the buffer that was active before it exactly as it was. |
| Lowering.LowerFunctionDeclaration | main.py:81-97 | A function declaration keeps `Grows`. |
| Lowering.LowerAssignment | main.py:326-342 | Assignment, assignment pattern and binary expression keep `Grows`. |
| Lowering.LowerBase | main.py:122-129 | `return`, `yield` and `raise` with an argument keep `Grows`. |
| Lowering.LowerBlock | main.py:141-147 | A block keeps `Grows`. |
| Lowering.LowerStatements | main.py:141-147 | One line per statement of a block, and `Grows`. |
| Lowering.LowerIf | main.py:156-178 | An if statement keeps `Grows`. |
| Lowering.LowerElse | main.py:167-176 | The alternate of an if statement keeps `Grows`. |
| Lowering.LowerSwitch | main.py:199-209 | A switch keeps `Grows`. |
| Lowering.LowerCases | main.py:203-205 | One text per case, and `Grows`. |
| Lowering.LowerCase | main.py:211-225 | A case keeps `Grows`. |
| Lowering.LowerDeclaration | main.py:227-234 | A variable declaration keeps `Grows`. |
| Lowering.LowerDeclarators | main.py:229-233 | One text per declarator, and `Grows`. |
| Lowering.LowerInit | main.py:240-253 | Lowering an initializer keeps `Grows`. |
| Lowering.LowerDeclarator | main.py:236-281 | A declarator keeps `Grows`. |
| Lowering.LowerCopies | main.py:264-265 | The copy lines of an object pattern only extend `heads`. |
| Lowering.PropKey | main.py:264 | Lowering a pattern key keeps `Grows`. |
| Lowering.LowerCall | main.py:344-379 | A call or `new` keeps `Grows`. |
| Lowering.LowerCallPart | main.py:355-372 | A callee or argument keeps `Grows`. |
| Lowering.LowerArgs | main.py:364-373 | One text per argument, and `Grows`. |
| Lowering.LowerClass | main.py:434-447 | A class declaration keeps `Grows` and leaves `in_class` off. |
| Lowering.LowerClassBody | main.py:449-453 | A class body keeps `Grows`. |
| Lowering.LowerMethods | main.py:449-451 | One text per method, and `Grows`. |
| Lowering.LowerMethod | main.py:455-461 | A method definition keeps `Grows`. |
| Lowering.LowerForIn | main.py:470-480 | `for … in` and `for … of` keep `Grows`. |
| Lowering.LowerFor | main.py:482-492 | A `for` loop keeps `Grows`. |
| Lowering.LowerWhile | main.py:494-505 | `while` and `do … while` keep `Grows`. |
| Lowering.LowerTry | main.py:507-514 | A try statement keeps `Grows`. |
| Lowering.LowerCatch | main.py:516-521 | A catch clause keeps `Grows`. |
| Visitor.JsVisitor.constructor | main.py:5-38 | A new visitor is at level 0, outside any class, with counter -1. Its buffer holds only the runtime imports. |
| Visitor.JsVisitor.GetIndent | main.py:46-47 | getIndent is four spaces per level of the current field. |
| Visitor.JsVisitor.Indent | main.py:40-41 | indent raises the level by one and changes nothing else. |
| Visitor.JsVisitor.Dedent | main.py:43-44 | dedent lowers the level by one and changes nothing else. |
| Visitor.JsVisitor.SetHeads | main.py:49-51 | setHeads saves a copy of the active buffer and installs the given one. |
| Visitor.JsVisitor.UnSetHeads | main.py:53-54 | unSetHeads makes the saved buffer active again. |
| Visitor.JsVisitor.Randnum | main.py:56-58 | randnum advances the counter by one and returns the new value, which is larger than any handed out before. |
| Visitor.JsVisitor.Append | main.py:109-112 | Appending to the active buffer adds exactly that fragment at its end. |
| Visitor.JsVisitor.Visit | main.py:60-61 | `visit` dispatches on the node class. Its text and its final fields are those of `Lower`. |
| Visitor.JsVisitor.VisitPrimary | main.py:72-78 | Identifiers, literals, `this`, arrays, objects, function literals, rest/spread and `yield`: text and fields as `LowerExpression`. |
| Visitor.JsVisitor.VisitOperator | main.py:283-342 | Operator expressions: text and fields as `LowerExpression`. |
| Visitor.JsVisitor.VisitCallOrMember | main.py:344-432 | Calls, `new` and member accesses: text and fields as `LowerExpression`. |
| Visitor.JsVisitor.VisitSimpleStatement | main.py:311-321 | Expression, empty, break, continue, return, throw and block statements: as `LowerStatement`. |
| Visitor.JsVisitor.VisitForLoop | main.py:470-492 | The `for` loops: as `LowerStatement`. |
| Visitor.JsVisitor.VisitBlockOpener | main.py:156-225 | if, switch and try: as `LowerStatement`. |
| Visitor.JsVisitor.VisitDeclaration | main.py:227-234 | Variable, function and class declarations: as `LowerStatement`. |
| Visitor.JsVisitor.VisitScript | main.py:63-67 | visit_Script returns the buffer followed by the statement texts, as `LowerScript`. |
| Visitor.JsVisitor.VisitAll | main.py:63-67 | The loop over a node list: texts and fields as `LowerList`. |
| Visitor.JsVisitor.VisitOpt | main.py:484-490 | A child that may be absent, printed as the given absent text: as `LowerOpt`. |
| Visitor.JsVisitor.VisitTemplateLiteral | main.py:186-193 | The template loop, with an expression while one is left at that index: as `LowerExpression`. |
| Visitor.JsVisitor.VisitArrayPattern | main.py:385-386 | The comma-joined elements: as `LowerExpression`. |
| Visitor.JsVisitor.VisitElements | main.py:385-386 | The element loop: as `LowerElements`. |
| Visitor.JsVisitor.VisitObjectPattern | main.py:391-411 | `{…}` around the comma-joined properties: as `LowerObject`. |
| Visitor.JsVisitor.VisitProperties | main.py:397-406 | The property loop: as `LowerProps`. |
| Visitor.JsVisitor.VisitProperty | main.py:413-425 | A property, quoting an identifier key and hoisting a function value: as `LowerProp`. |
| Visitor.JsVisitor.VisitRestElement | main.py:149-154 | `*` and the argument: as `LowerExpression`. |
| Visitor.JsVisitor.VisitFunctionExpression | main.py:99-114 | A function literal is named, defined, hoisted and replaced by its name: as `LowerFunctionExpression`. |
| Visitor.JsVisitor.FunctionBody | main.py:88-97 | A body is lowered in a fresh buffer one level deeper. That buffer's fragments are spliced in front of it, and the old buffer is restored: as `LowerFunctionBody`. |
| Visitor.JsVisitor.VisitFunctionDeclaration | main.py:81-97 | As `LowerFunctionDeclaration`. An `async function` declaration is handed to the same rule (main.py:116-117) and prints `async def`. |
| Visitor.JsVisitor.VisitAssignmentExpression | main.py:326-342 | `left op right`: as `LowerAssignment`. |
| Visitor.JsVisitor.VisitUnaryExpression | main.py:293-309 | The unary rewrite: as `LowerExpression`. |
| Visitor.JsVisitor.VisitUpdateExpression | main.py:286-291 | The operand followed by the rewritten operator: as `LowerExpression`. |
| Visitor.JsVisitor.VisitConditionalExpression | main.py:323-324 | `a if t else b`: as `LowerExpression`. |
| Visitor.JsVisitor.VisitSequenceExpression | main.py:283-284 | `; `-joined expressions: as `LowerExpression`. |
| Visitor.JsVisitor.VisitMemberExpression | main.py:427-432 | `o.p` and `o[p]`: as `LowerExpression`. |
| Visitor.JsVisitor.BaseStatement | main.py:122-129 | A statement with an argument, with the sequence and unary/update/assignment splits: as `LowerBase`. |
| Visitor.JsVisitor.VisitBlockStatement | main.py:141-147 | A block, or `pass` when it is empty: as `LowerBlock`. |
| Visitor.JsVisitor.VisitStatements | main.py:143 | The statement lines, with `use strict` skipped: as `LowerStatements`. |
| Visitor.JsVisitor.VisitIfStatement | main.py:156-178 | The if rule, with its own buffer for the consequent: as `LowerIf`. |
| Visitor.JsVisitor.VisitSwitchStatement | main.py:199-209 | As `LowerSwitch`. |
| Visitor.JsVisitor.VisitCases | main.py:203-205 | The case loop: as `LowerCases`. |
| Visitor.JsVisitor.VisitSwitchCase | main.py:211-225 | As `LowerCase`. |
| Visitor.JsVisitor.VisitVariableDeclaration | main.py:227-234 | As `LowerDeclaration`. |
| Visitor.JsVisitor.VisitDeclarators | main.py:229-233 | The declarator loop: as `LowerDeclarators`. |
| Visitor.JsVisitor.VisitVariableDeclarator | main.py:236-281 | As `LowerDeclarator`, including the object-pattern expansion. |
| Visitor.JsVisitor.VisitInit | main.py:240-253 | The initializer: a hoisted function's name, a call, another expression, or `None`. As `LowerInit`. |
| Visitor.JsVisitor.VisitCopies | main.py:264-265 | The copy-line loop only appends to `heads`: as `LowerCopies`. |
| Visitor.JsVisitor.VisitKey | main.py:264 | As `PropKey`. |
| Visitor.JsVisitor.VisitCallExpression | main.py:344-376 | As `LowerCall`. |
| Visitor.JsVisitor.VisitArguments | main.py:364-373 | The argument loop: as `LowerArgs`. |
| Visitor.JsVisitor.CallPart | main.py:355-372 | A function literal is hoisted under a fresh `_anonymous_func_<n>`; anything else is visited. As `LowerCallPart`. |
| Visitor.JsVisitor.VisitClassDeclaration | main.py:434-447 | As `LowerClass`. |
| Visitor.JsVisitor.VisitClassBody | main.py:449-453 | As `LowerClassBody`. |
| Visitor.JsVisitor.VisitMethodDefinition | main.py:455-461 | As `LowerMethod`. |
| Visitor.JsVisitor.VisitForInStatement | main.py:470-477 | As `LowerForIn`. |
| Visitor.JsVisitor.VisitForStatement | main.py:482-492 | As `LowerFor`. |
| Visitor.JsVisitor.VisitWhileStatement | main.py:494-505 | `while` and `do … while`: as `LowerStatement`. |
| Visitor.JsVisitor.VisitTryStatement | main.py:507-514 | As `LowerTry`. |
| Visitor.JsVisitor.VisitCatchClause | main.py:516-521 | As `LowerCatch`. |
| Properties.BinaryOpTable | main.py:333-342 | The binary rewrite changes exactly `&&`, `\|\|`, `===` and `!==`. Its output is a fixpoint. |
| Properties.UpdateOpTable | main.py:286-291 | The update rewrite changes exactly `++` and `--`. Its output is a fixpoint. |
| Properties.IdentifierNameTable | main.py:72-78 | Renaming changes exactly `global` and `Error`. It never yields either name and is idempotent. |
| Properties.RelowerUpdate | main.py:286-291 | The rule overwrites the node's operator in place. Visiting the rewritten node again gives the same text and state. |
| Properties.RelowerBinary | main.py:333-342 | The same holds for a binary expression whose operator was rewritten in place. |
| Properties.IncrementText | main.py:286-291 | `x++` lowers to `x+=1`, and the state is unchanged. |
| Properties.NewIsCall | main.py:378-379 | `new C(args)` lowers exactly like `C(args)`. `new` is dropped. |
| Properties.AnonNameInjective | main.py:104-105 | `_anonymous_func_<a>` equals `_anonymous_func_<b>` only when `a == b`. |
| Properties.TempNameInjective | main.py:257-261 | `_temp_<a>` equals `_temp_<b>` only when `a == b`. |
| Properties.PropertyFunctionNamesCollide | main.py:420-421 | Property-function names can collide: key `a` with number 11 and key `a1` with number 1 give the same name. |
| Properties.PropertyFunctionNameMeetsAnonName | main.py:420-421 | A property-function name can equal an anonymous-function name: key `1` with number 2 gives `_anonymous_func_12`. |
| Properties.StringKeyPropertyFunctionName | main.py:420-421 | A string key keeps its quotes in the name: key `"a"` with number 3 gives `_anonymous_func_'a'3`, which is not a Python identifier. |
| Properties.HeadDefines | main.py:82-86 | The head of every function is a decorated `def name(` (or `async def name(`) at the caller's indentation. |
| Properties.BodyDefines | main.py:81-97 | Splicing the body after the head keeps it a definition of that name. |
| Properties.IdentifierList | main.py:84 | Identifier parameters lower to their renamed names and leave the state unchanged. |
| Properties.FunctionExpressionHoists | main.py:99-114 | A function literal returns the caller's name, or `_anonymous_func_` with the next counter value. The buffer is extended. Its last entry defines the returned name at the current indentation. The counter advances when a name is made up. |
| Properties.FunctionExpressionHoistsOne | main.py:109-112 | With identifier parameters, exactly one fragment is added to the buffer. |
| Properties.FunctionDeclarationScoped | main.py:81-97 | A function declaration leaves the active buffer and the level as it found them, and its text defines the declared name. |
| Properties.CallPartFresh | main.py:355-359 | A function-literal callee is named `_anonymous_func_` with the next counter value, and the counter moves past it. |
| Properties.ArgNamesFresh | main.py:364-373 | Each function-literal argument is named with a counter value handed out during this argument list. |
| Properties.FirstArgNameUnique | main.py:364-373 | The first function-literal argument's name differs from every later one's. |
| Properties.ArgNamesDistinct | main.py:364-373 | The names of any two function-literal arguments of one call differ. |
| Properties.CallNamesDistinct | main.py:344-376 | Within one call, the callee's synthesized name and every argument's are pairwise distinct. |
| Properties.CallPartHoists | main.py:355-359 | A function-literal callee is named `_anonymous_func_` with the next counter value. The buffer grows, and its last entry defines that name at the current indentation. |
| Properties.ArgNamesHoisted | main.py:364-373 | For every function-literal argument, some fragment added to the buffer during the argument loop defines the name that stands in its place. |
| Properties.CallHoists | main.py:344-376 | A call is the callee text, then the `, `-joined argument texts in parentheses, one per argument. Every function-literal callee or argument is replaced by a name that a fragment added to the buffer by this call defines at the current indentation. |
| Properties.CopyLines | main.py:264-265 | One copy line per pattern entry whose key is an identifier or a literal, or which is a rest entry. |
| Properties.CopyLinesElements | main.py:264-265 | Copy line `i` is `k = _temp_<n>.k` for the text `k` of the `i`-th entry's key: its renamed identifier, its literal's `repr`, or `None` for a rest entry. |
| Properties.PlainKeyLowers | main.py:264 | Visiting an identifier key, a literal key or a rest entry's missing key gives that text and leaves the state unchanged. |
| Properties.RestCopyLine | main.py:264-265 | A rest entry `...z` gives the copy line `None = _temp_<n>.None`. |
| Properties.CopiesOfSimpleKeys | main.py:263-265 | The key loop appends exactly the copy lines to the buffer and changes nothing else. |
| Properties.DelTail | main.py:279-281 | The tail is the `str()` of the one-element list `['del _temp_<n>']`. |
| Properties.DestructuringDeclarator | main.py:255-281 | An object-pattern declarator hoists `_temp_<n> = value` and then the copy lines. It takes exactly one counter value. Its own text is only `\n<indent>['del _temp_<n>']`. |
| Properties.SimpleDeclarator | main.py:273-276 | `x = literal` as a declarator is `x = <repr>`, and the state is unchanged. |
| Properties.GeneralDeclarator | main.py:241-276 | `x = v` for any value that is not a function literal is `x = <v>` (only `x` in a `for … in` head), in the state lowering `v` leaves. |
| Properties.FunctionInitDeclarator | main.py:241-276 | `x = <function literal>` buffers exactly one fragment, which starts with `def x(this, arguments, <params>):` at the current indentation. The declarator itself is `x = x`. |
| Properties.SimpleDeclaration | main.py:227-234 | `var x = literal` lowers to a blank line, then `x = <repr>` on its own line at the current indentation. |
| Properties.DoWhileIsWhile | main.py:504-505 | `do body while (t)` lowers exactly like `while (t) body`. |
| Properties.ElseIfDropped | main.py:168-170 | An `else if` arm contributes no text: the result equals the if statement without it. |
| Properties.TryFinallyHasNoKeyword | main.py:507-514 | A try/finally without a handler is `try:` and the block, then the finalizer on a new line at the current indentation with no `finally:` keyword. |
| Properties.SwitchDefaultArm | main.py:212-215 | A case without a test starts with `default:` and a line break. |
| Properties.ReturnOfUpdate | main.py:124-128 | `return x++` is `x+=1`, then `return x` on a new line at the current indentation. |
| Properties.TemplateDelimiters | main.py:186-193 | A template's text starts with `f"""` and ends with `"""`. |
| Properties.QuasisTail | main.py:188-191 | Past the last expression, each cooked text is copied as it is. |
| Properties.TemplateWithoutExpressions | main.py:186-193 | A template without expressions is its cooked texts, in order, between the delimiters. |
| Properties.BracedParts | main.py:189-191 | One part per expression: the cooked text at that position followed by its identifier in braces. |
| Properties.QuasisWithExpressions | main.py:188-191 | From position `i` on, the template loop gives the braced parts, then the cooked texts past the last expression. |
| Properties.TemplateWithExpressions | main.py:186-193 | A template over identifiers is each cooked text with its name in braces, then the trailing cooked texts, between the delimiters. |
| Properties.ScriptLayout | main.py:63-67 | For a fresh visitor the result is the buffer and then one text per statement. The buffer starts with the runtime imports. |

## Left out

- Parsing and dispatch. esprima's `parse` and the `visit` dispatch live in the parser library, which is not part of this model. Dispatch is modelled as a `match` on the node class. A node with no rule of its own reaches `visit_Object`, whose `Visited` wrapper is printed. It is modelled as `Unhandled`, carrying that printed text. Directive statements likewise carry their printed text.
- Regular-expression literals (visit_RegexLiteral) and floating-point literals are not modelled, because `repr` of a float is outside this model. `repr` of non-ASCII characters follows Python's printable test only for ASCII.
- Async function expressions and async arrows are `FunctionExpression` and `ArrowFunctionExpression` with `isAsync` set. esprima gives them classes of their own, which the dispatch sees, but the same `type` strings as the non-async nodes, which the rules test. The declarator, callee and argument rules (main.py:242, 355, 366), and the property rule for a function-expression value (main.py:419), test the `type` and call visit_FunctionExpression themselves, so they hoist these as `async def`. At any other position, such as `[async function(){}]`, the dispatch finds no rule for their classes and the source falls back to `visit_Object`. The model lowers them there as functions all the same.
- An `Unhandled` node, and an expression statement around one, is a `Visited` object in the source, not a string. An f-string converts it, but `+` and `join` raise `TypeError` on it. The model returns its text in these positions: the `if` and `else` bodies (main.py:163, 174), the loop bodies (main.py:474-477, 487-488, 498-501), the `try` block, handler and finalizer (main.py:510-514), the `catch` body (main.py:519-521), a function body (main.py:93), parameters (main.py:84), rest and spread arguments (main.py:150, 153), sequence entries (main.py:284), array entries (main.py:386), call arguments (main.py:372-373) and a key with a function value (main.py:421).
- A spread entry inside an object literal makes visit_Property fail on its missing key. The tree has no such entry.
- The fields are class attributes in the source, so a second visitor shares `heads` with the first. Each model visitor starts from `Initial`.
- In-place changes to the tree are computed as values instead. These are the rewritten operator tokens, `node.id`, the inserted `self` parameter and `expressions.pop()`. `RelowerUpdate` and `RelowerBinary` show that visiting a rewritten node again gives the same result.
- Lowering.LowerBase: for `return`, `yield` and `throw` of a unary, update or assignment operand, the source visits `node.argument.argument` a second time (main.py:128). That second visit sees the tree the first visit changed. The model lowers the original operand again. The two differ when the operand holds a function literal whose body returns a sequence, because `expressions.pop()` (main.py:126) has already removed its last entry. They also differ when the function literal holds a class method, because `params.insert(0, "self")` (main.py:457) has already added a `self`. Example: in `return -function(){ return a, b }`, the source's second copy of the function returns only `a`, and in `return !function(){ class A { m(){} } }()` its second copy of the method is `def m(self, self):`. The model gives the same text both times. The same holds for `Visitor.JsVisitor.BaseStatement`. Only the rewritten operator tokens are proved harmless on a second visit.
- visit_Program calls `visit` on its own node forever. The parser never builds that node. `current_params`, the `is_global` and `direct` arguments and the `randint` import are never read, and are left out.
- The `for` update of `i++` is `i+=1`, as the code writes it, not `i += 1`. No module-level `import`/`export` lowering exists in the code.
- Lowering.DelTails is the closed form of `str(tails)` for the one-element tail list. `Properties.DelTail` proves that it equals the `ListRepr`.
- Properties.CopyLines: the closed form covers identifier keys, literal keys and rest entries. A computed key such as `[k]` is visited like any expression, and its copy lines are the ones `Lowering.LowerCopies` computes, with no lemma of their own.
- Properties.SimpleDeclarator: requires a non-empty identifier, which JavaScript always has. The source drops an empty key from the text.
- Properties.SimpleDeclaration: requires a non-empty identifier, for the same reason.
- Properties.TemplateWithExpressions: states the text only for identifier expressions. Other expressions are covered by `LowerQuasis` and the visitor's equality with it.
- The driver at the end of `main.py` is commented out. The test harness in `tests/tests.py` reads and writes files. Neither is modelled.

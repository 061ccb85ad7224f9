/** The syntax tree the visitor walks: the node classes of the esprima parser that
    `JsVisitor` has a `visit_*` rule for, with the attributes those rules read.
    A node the visitor has no rule for is `Unhandled`, carrying the text that stands for
    the parser library's fallback visit of it. */
module Ast {
  import opened Options

  /** Literal values: strings, integers, booleans and `null`. */
  datatype Lit = StrLit(s: string) | IntLit(i: int) | BoolLit(b: bool) | NullLit

  datatype Node =
    | Identifier(name: string)
    | Literal(value: Lit)
      /** `quasis` are the cooked texts of the template's elements. */
    | TemplateLiteral(quasis: seq<string>, expressions: seq<Node>)
    | ThisExpression
      /** `None` is an elision (`[a, , b]`). */
    | ArrayExpression(elements: seq<Option<Node>>)
    | ArrayPattern(elements: seq<Option<Node>>)
    | ObjectExpression(properties: seq<Prop>)
    | ObjectPattern(properties: seq<Prop>)
    | FunctionExpression(params: seq<Node>, body: Node, isAsync: bool)
      /** `concise` is esprima's `expression` flag for a concise body (`x => x * 2`). */
    | ArrowFunctionExpression(params: seq<Node>, body: Node, concise: bool, isAsync: bool)
    | RestElement(argument: Node)
    | SpreadElement(argument: Node)
    | AssignmentPattern(left: Node, right: Node)
    | AssignmentExpression(operator: string, left: Node, right: Node)
      /** esprima builds `&&` and `||` with its BinaryExpression class too. */
    | BinaryExpression(operator: string, left: Node, right: Node)
    | UnaryExpression(operator: string, argument: Node, prefix: bool)
    | UpdateExpression(operator: string, argument: Node, prefix: bool)
    | ConditionalExpression(test: Node, consequent: Node, alternateExpr: Node)
      /** The parser never builds an empty sequence: `first` and then `rest`. */
    | SequenceExpression(first: Node, rest: seq<Node>)
    | CallExpression(callee: Node, arguments: seq<Node>)
    | NewExpression(callee: Node, arguments: seq<Node>)
    | StaticMemberExpression(obj: Node, property: Node)
    | ComputedMemberExpression(obj: Node, property: Node)
    | YieldExpression(optArgument: Option<Node>)
    | ExpressionStatement(expression: Node)
      /** A directive prologue string; the visitor has no rule for it. */
    | Directive(directive: string, dump: string)
    | BlockStatement(statements: seq<Node>)
    | EmptyStatement
    | BreakStatement
    | ContinueStatement
    | ReturnStatement(optArgument: Option<Node>)
    | ThrowStatement(argument: Node)
    | IfStatement(test: Node, consequent: Node, alternate: Option<Node>)
    | SwitchStatement(discriminant: Node, cases: seq<SwitchCase>)
    | VariableDeclaration(declarations: seq<Declarator>)
      /** esprima's FunctionDeclaration class; `isAsync` is the flag the rule reads. An
          `async function` declaration is another class whose rule hands it to the same
          FunctionDeclaration rule: it is this node with `isAsync` set. */
    | FunctionDeclaration(id: Node, params: seq<Node>, body: Node, isAsync: bool)
    | ClassDeclaration(id: Node, superClass: Option<Node>, methods: seq<MethodDefinition>)
    | ForStatement(init: Option<Node>, cond: Option<Node>, update: Option<Node>, body: Node)
    | ForInStatement(left: Node, right: Node, body: Node)
    | ForOfStatement(left: Node, right: Node, body: Node)
    | WhileStatement(test: Node, body: Node)
    | DoWhileStatement(body: Node, test: Node)
    | TryStatement(block: Node, handler: Option<CatchClause>, finalizer: Option<Node>)
    | Unhandled(dump: string)

  /** An entry of an object literal or object pattern: esprima's Property, or a
      RestElement (`...rest`), which has no key. `RestProperty` stands for the
      pattern's RestElement only; a spread inside an object literal is a
      SpreadElement, and the parser never puts a RestElement there. */
  datatype Prop = Property(key: Node, value: Node) | RestProperty(argument: Node)

  datatype Declarator = VariableDeclarator(id: Node, init: Option<Node>)

  /** `test == None` is the `default:` arm. */
  datatype SwitchCase = SwitchCase(test: Option<Node>, consequent: seq<Node>)

  /** A class member: its key and the parameters and body of its function value. */
  datatype MethodDefinition =
    MethodDefinition(key: Node, params: seq<Node>, body: Node, isAsync: bool, isStatic: bool)

  datatype CatchClause = CatchClause(param: Option<Node>, body: Node)

  /** `"Function" in node.type`: the node types that hold a function literal. */
  predicate IsFunctionLiteral(n: Node)
  {
    n.FunctionExpression? || n.ArrowFunctionExpression?
  }

  /** The statement node classes (everything else is an expression or a pattern). */
  predicate IsStatement(n: Node)
  {
    || n.ExpressionStatement? || n.Directive? || n.BlockStatement? || n.EmptyStatement?
    || n.BreakStatement? || n.ContinueStatement? || n.ReturnStatement? || n.ThrowStatement?
    || n.IfStatement? || n.SwitchStatement? || n.VariableDeclaration? || n.FunctionDeclaration?
    || n.ClassDeclaration? || n.ForStatement? || n.ForInStatement? || n.ForOfStatement?
    || n.WhileStatement? || n.DoWhileStatement? || n.TryStatement? || n.Unhandled?
  }

  /** Expressions built from an operator and its operands. */
  predicate IsOperator(n: Node)
  {
    || n.AssignmentPattern? || n.AssignmentExpression? || n.BinaryExpression?
    || n.UnaryExpression? || n.UpdateExpression? || n.ConditionalExpression? || n.SequenceExpression?
  }

  /** Calls, `new` and member accesses. */
  predicate IsCallOrMember(n: Node)
  {
    n.CallExpression? || n.NewExpression? || n.StaticMemberExpression? || n.ComputedMemberExpression?
  }

  /** The `for` loops (a `while` or `do ... while` loop is dispatched on its own). */
  predicate IsForLoop(n: Node)
  {
    n.ForStatement? || n.ForInStatement? || n.ForOfStatement?
  }

  /** The other statements whose lowering opens an indented block. */
  predicate OpensBlock(n: Node)
  {
    n.IfStatement? || n.SwitchStatement? || n.TryStatement?
  }

  /** Variable, function and class declarations. */
  predicate IsDeclaration(n: Node)
  {
    n.VariableDeclaration? || n.FunctionDeclaration? || n.ClassDeclaration?
  }

  /** The `use strict` directive that a block skips. */
  predicate IsUseStrict(n: Node)
  {
    n.Directive? && n.directive == "use strict"
  }
}

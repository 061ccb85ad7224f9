/** The lowering rules of `JsVisitor` as functions over a value `Ctx` that holds the
    visitor's fields. `Lower(n, c)` is what visiting `n` in state `c` returns, paired
    with the state the visit leaves behind; the class in module Visitor is proved to
    compute exactly this. Every function here keeps `Grows`: the indentation level is
    restored, the name counter never goes back, the hoist buffer is only appended to,
    and the class flag is only ever switched off. */
module Lowering {
  import opened Options
  import opened Strings
  import opened Ast
  import opened Tokens

  /** The runtime imports that every translation starts with (the initial `heads`). */
  const Preamble: string :=
    "from js2py.base import *\n"
    + "from js2py.constructors.jsmath import Math\n"
    + "from js2py.constructors.jsdate import Date\n"
    + "from js2py.constructors.jsobject import Object\n"
    + "from js2py.constructors.jsfunction import Function\n"
    + "from js2py.constructors.jsstring import String\n"
    + "from js2py.constructors.jsnumber import Number\n"
    + "from js2py.constructors.jsboolean import Boolean\n"
    + "from js2py.constructors.jsregexp import RegExp\n"
    + "from js2py.constructors.jsarray import Array\n"
    + "from js2py.constructors.jsarraybuffer import ArrayBuffer\n"
    + "from js2py.constructors.jsint8array import Int8Array\n"
    + "from js2py.constructors.jsuint8array import Uint8Array\n"
    + "from js2py.constructors.jsuint8clampedarray import Uint8ClampedArray\n"
    + "from js2py.constructors.jsint16array import Int16Array\n"
    + "from js2py.constructors.jsuint16array import Uint16Array\n"
    + "from js2py.constructors.jsint32array import Int32Array\n"
    + "from js2py.constructors.jsuint32array import Uint32Array\n"
    + "from js2py.constructors.jsfloat32array import Float32Array\n"
    + "from js2py.constructors.jsfloat64array import Float64Array\n"
    + "from js2py.prototypes.jsjson import JSON\n"
    + "from js2py.host.console import console\n"
    + "from js2py.host.jseval import Eval\n"
    + "from js2py.host.jsfunctions import parseFloat, parseInt, isFinite, "
    + "    isNaN, escape, unescape, encodeURI, decodeURI, encodeURIComponent, decodeURIComponent\n"

  /** The visitor's fields: `indentLevel`, `in_class`, the name counter `i`, the active
      hoist buffer `heads` and the saved copy `oldHeads`. */
  datatype Ctx = Ctx(indentLevel: int, inClass: bool, counter: int, heads: seq<string>, oldHeads: seq<string>)

  /** What one visit returns, and the state after it. */
  datatype Lowered = Lowered(text: string, ctx: Ctx)

  /** What a run of visits returns, one text per node, and the state after them. */
  datatype LoweredSeq = LoweredSeq(texts: seq<string>, ctx: Ctx)

  /** A fresh visitor: level 0, outside any class, counter -1, buffer = the preamble. */
  const Initial: Ctx := Ctx(0, false, -1, [Preamble], [])

  /** getIndent. */
  function IndentOf(c: Ctx): string
  {
    IndentText(c.indentLevel)
  }

  /** indent. */
  function Indented(c: Ctx): Ctx
  {
    c.(indentLevel := c.indentLevel + 1)
  }

  /** dedent. */
  function Dedented(c: Ctx): Ctx
  {
    c.(indentLevel := c.indentLevel - 1)
  }

  /** setHeads: save a copy of the active buffer and make `h` the active one. */
  function WithHeads(c: Ctx, h: seq<string>): Ctx
  {
    c.(oldHeads := c.heads, heads := h)
  }

  /** unSetHeads: make the saved copy the active buffer again. */
  function WithoutHeads(c: Ctx): Ctx
  {
    c.(heads := c.oldHeads)
  }

  /** randnum: the counter moves on by one; the new value is the number handed out. */
  function Bumped(c: Ctx): Ctx
  {
    c.(counter := c.counter + 1)
  }

  /** `self.heads.append(fragment)`. */
  function Hoisted(c: Ctx, fragment: string): Ctx
  {
    c.(heads := c.heads + [fragment])
  }

  /** How the state may change across one visit. */
  predicate Grows(c: Ctx, d: Ctx)
  {
    && d.indentLevel == c.indentLevel
    && c.counter <= d.counter
    && c.heads <= d.heads
    && (d.inClass ==> c.inClass)
  }

  /** The head line of visit_FunctionDeclaration: decorator, `def`, name and parameters. */
  function FunctionHead(indent: string, isAsync: bool, name: string, params: seq<string>): string
  {
    "\n" + indent + "@Js\n" + indent + (if isAsync then "async " else "") + "def " + name
    + "(" + Join(", ", params) + "):\n"
  }

  /** The hoisted fragments of a function body, each followed by a line break and the
      enclosing indentation, as they are spliced in front of the body. */
  function Spliced(fragments: seq<string>, indent: string): string
  {
    Concat(Suffixed(fragments, "\n" + indent))
  }

  /** `self.visit(node)`: dispatch on the node's class. */
  function Lower(n: Node, c: Ctx): (r: Lowered)
    ensures Grows(c, r.ctx)
    decreases n, 4
  {
    if IsStatement(n) then LowerStatement(n, c) else LowerExpression(n, c)
  }

  /** The rules for expression and pattern nodes. */
  function LowerExpression(n: Node, c: Ctx): (r: Lowered)
    requires !IsStatement(n)
    ensures Grows(c, r.ctx)
    decreases n, 3
  {
    match n
    case Identifier(name) => Lowered(IdentifierName(name), c)
    case Literal(v) => Lowered(LiteralText(v), c)
    case TemplateLiteral(quasis, exprs) =>
      var body := LowerQuasis(quasis, exprs, 0, c);
      Lowered("f\"\"\"" + body.text + "\"\"\"", body.ctx)
    case ThisExpression => Lowered(if c.inClass then "self" else "this", c)
    case ArrayExpression(els) =>
      var r := LowerElements(els, c);
      Lowered("Js([" + Join(", ", r.texts) + "])", r.ctx)
    case ArrayPattern(els) =>
      var r := LowerElements(els, c);
      Lowered(Join(", ", r.texts), r.ctx)
    case ObjectExpression(_) => LowerObject(n, c)
    case ObjectPattern(_) => LowerObject(n, c)
    case FunctionExpression(_, _, _) => LowerFunctionExpression(n, "", c)
    case ArrowFunctionExpression(_, _, _, _) => LowerFunctionExpression(n, "_", c)
    case RestElement(a) =>
      var r := Lower(a, c);
      Lowered("*" + r.text, r.ctx)
    case SpreadElement(a) =>
      var r := Lower(a, c);
      Lowered("*" + r.text, r.ctx)
    case AssignmentPattern(_, _) => LowerAssignment(n, "=", c)
    case AssignmentExpression(op, _, _) => LowerAssignment(n, op, c)
    case BinaryExpression(op, _, _) => LowerAssignment(n, BinaryOp(op), c)
    case UnaryExpression(op, a, prefix) =>
      var r := Lower(a, c);
      Lowered(UnaryText(op, r.text, prefix), r.ctx)
    case UpdateExpression(op, a, _) =>
      var r := Lower(a, c);
      Lowered(r.text + UpdateOp(op), r.ctx)
    case ConditionalExpression(test, cons, alt) =>
      var x := Lower(cons, c);
      var t := Lower(test, x.ctx);
      var y := Lower(alt, t.ctx);
      Lowered(x.text + " if " + t.text + " else " + y.text, y.ctx)
    case SequenceExpression(first, rest) =>
      var f := Lower(first, c);
      var r := LowerList(rest, f.ctx);
      Lowered(Join("; ", [f.text] + r.texts), r.ctx)
    case CallExpression(_, _) => LowerCall(n, c)
    case NewExpression(_, _) => LowerCall(n, c)
    case StaticMemberExpression(o, p) =>
      var x := Lower(o, c);
      var y := Lower(p, x.ctx);
      Lowered(x.text + "." + y.text, y.ctx)
    case ComputedMemberExpression(o, p) =>
      var x := Lower(o, c);
      var y := Lower(p, x.ctx);
      Lowered(x.text + "[" + y.text + "]", y.ctx)
    case YieldExpression(arg) =>
      if arg.None? then Lowered("yield None", c) else LowerBase("yield", arg.value, c)
  }

  /** The rules for statement nodes. */
  function LowerStatement(n: Node, c: Ctx): (r: Lowered)
    requires IsStatement(n)
    ensures Grows(c, r.ctx)
    decreases n, 3
  {
    match n
    case ExpressionStatement(e) => Lower(e, c)
    case Directive(_, dump) => Lowered(dump, c)
    case BlockStatement(_) => LowerBlock(n, c)
    case EmptyStatement => Lowered("", c)
    case BreakStatement => Lowered("break", c)
    case ContinueStatement => Lowered("continue", c)
    case ReturnStatement(arg) =>
      if arg.None? then Lowered("return None", c) else LowerBase("return", arg.value, c)
    case ThrowStatement(a) => LowerBase("raise", a, c)
    case IfStatement(_, _, _) => LowerIf(n, c)
    case SwitchStatement(_, _) => LowerSwitch(n, c)
    case VariableDeclaration(_) => LowerDeclaration(n, true, c)
    case FunctionDeclaration(_, _, _, _) => LowerFunctionDeclaration(n, c)
    case ClassDeclaration(_, _, _) => LowerClass(n, c)
    case ForStatement(_, _, _, _) => LowerFor(n, c)
    case ForInStatement(_, _, _) => LowerForIn(n, c)
    case ForOfStatement(_, _, _) => LowerForIn(n, c)
    case WhileStatement(_, _) => LowerWhile(n, c)
    case DoWhileStatement(_, _) => LowerWhile(n, c)
    case TryStatement(_, _, _) => LowerTry(n, c)
    case Unhandled(dump) => Lowered(dump, c)
  }

  /** visit_Script: every top-level statement in order, then the buffer in front of them. */
  function LowerScript(body: seq<Node>, c: Ctx): (r: LoweredSeq)
    ensures Grows(c, r.ctx)
  {
    var s := LowerList(body, c);
    LoweredSeq(s.ctx.heads + s.texts, s.ctx)
  }

  /** Visit each node in order, threading the state. */
  function LowerList(ns: seq<Node>, c: Ctx): (r: LoweredSeq)
    ensures Grows(c, r.ctx)
    ensures |r.texts| == |ns|
    decreases ns
  {
    if ns == [] then LoweredSeq([], c)
    else
      var x := Lower(ns[0], c);
      var rest := LowerList(ns[1..], x.ctx);
      LoweredSeq([x.text] + rest.texts, rest.ctx)
  }

  /** One step of LowerList from position `k`, given what `ns[k]` lowers to, with the
      texts `done` produced before position `k`. */
  lemma ListAt(ns: seq<Node>, k: nat, c: Ctx, t: string, c1: Ctx, done: seq<string>)
    requires k < |ns|
    requires Lower(ns[k], c) == Lowered(t, c1)
    ensures var rest := LowerList(ns[k + 1..], c1);
      && LowerList(ns[k..], c).ctx == rest.ctx
      && done + LowerList(ns[k..], c).texts == (done + [t]) + rest.texts
  {
    assert ns[k..][1..] == ns[k + 1..];
    var rest := LowerList(ns[k + 1..], c1);
    assert done + ([t] + rest.texts) == (done + [t]) + rest.texts;
  }

  /** A child that may be absent: `self.visit(x)` prints a missing child as `None`, and the
      `", ".join` of array elements prints an elision as the empty text, so the caller
      passes the `absent` text. */
  function LowerOpt(o: Option<Node>, absent: string, c: Ctx): (r: Lowered)
    ensures Grows(c, r.ctx)
    decreases o
  {
    match o
    case None => Lowered(absent, c)
    case Some(x) => Lower(x, c)
  }

  /** visit_TemplateLiteral from quasi `i` on: each cooked text followed by
      `{expression}` while there is an expression at that position. */
  function LowerQuasis(quasis: seq<string>, exprs: seq<Node>, i: nat, c: Ctx): (r: Lowered)
    ensures Grows(c, r.ctx)
    decreases exprs, |quasis| - i
  {
    if i >= |quasis| then Lowered("", c)
    else if i >= |exprs| then
      var rest := LowerQuasis(quasis, exprs, i + 1, c);
      Lowered(quasis[i] + rest.text, rest.ctx)
    else
      var e := Lower(exprs[i], c);
      var rest := LowerQuasis(quasis, exprs, i + 1, e.ctx);
      Lowered(quasis[i] + "{" + e.text + "}" + rest.text, rest.ctx)
  }
  /** One step of LowerQuasis at position `i`, given what the braced expression there
      (if any) lowers to, with the text `done` produced before position `i`. */
  lemma QuasisAt(quasis: seq<string>, exprs: seq<Node>, i: nat, c: Ctx, ex: string, c1: Ctx, done: string)
    requires i < |quasis|
    requires (if i < |exprs| then var e := Lower(exprs[i], c); Lowered("{" + e.text + "}", e.ctx)
              else Lowered("", c)) == Lowered(ex, c1)
    ensures var rest := LowerQuasis(quasis, exprs, i + 1, c1);
      && LowerQuasis(quasis, exprs, i, c).ctx == rest.ctx
      && done + LowerQuasis(quasis, exprs, i, c).text == (done + quasis[i] + ex) + rest.text
  {
    var rest := LowerQuasis(quasis, exprs, i + 1, c1);
    if i < |exprs| {
      var e := Lower(exprs[i], c);
      assert quasis[i] + "{" + e.text + "}" + rest.text == quasis[i] + ("{" + e.text + "}") + rest.text;
    }
    assert done + (quasis[i] + ex + rest.text) == (done + quasis[i] + ex) + rest.text;
  }


  /** visit_ArrayPattern's elements: an elision lowers to the empty text. */
  function LowerElements(els: seq<Option<Node>>, c: Ctx): (r: LoweredSeq)
    ensures Grows(c, r.ctx)
    ensures |r.texts| == |els|
    decreases els
  {
    if els == [] then LoweredSeq([], c)
    else
      var x := LowerOpt(els[0], "", c);
      var rest := LowerElements(els[1..], x.ctx);
      LoweredSeq([x.text] + rest.texts, rest.ctx)
  }

  /** One step of LowerElements from position `k`, given what `els[k]` lowers to, with the
      texts `done` produced before position `k`. */
  lemma ElementsAt(els: seq<Option<Node>>, k: nat, c: Ctx, t: string, c1: Ctx, done: seq<string>)
    requires k < |els|
    requires LowerOpt(els[k], "", c) == Lowered(t, c1)
    ensures var rest := LowerElements(els[k + 1..], c1);
      && LowerElements(els[k..], c).ctx == rest.ctx
      && done + LowerElements(els[k..], c).texts == (done + [t]) + rest.texts
  {
    assert els[k..][1..] == els[k + 1..];
    var rest := LowerElements(els[k + 1..], c1);
    assert done + ([t] + rest.texts) == (done + [t]) + rest.texts;
  }

  /** visit_ObjectPattern (and visit_ObjectExpression, which calls it). */
  function LowerObject(n: Node, c: Ctx): (r: Lowered)
    requires n.ObjectExpression? || n.ObjectPattern?
    ensures Grows(c, r.ctx)
    decreases n, 2
  {
    var r := LowerProps(n.properties, c);
    Lowered("{" + Join(", ", r.texts) + "}", r.ctx)
  }

  function LowerProps(props: seq<Prop>, c: Ctx): (r: LoweredSeq)
    ensures Grows(c, r.ctx)
    ensures |r.texts| == |props|
    decreases props
  {
    if props == [] then LoweredSeq([], c)
    else
      var x := LowerProp(props[0], c);
      var rest := LowerProps(props[1..], x.ctx);
      LoweredSeq([x.text] + rest.texts, rest.ctx)
  }

  /** One step of LowerProps from position `k`, given what `props[k]` lowers to, with the
      texts `done` produced before position `k`. */
  lemma PropsAt(props: seq<Prop>, k: nat, c: Ctx, t: string, c1: Ctx, done: seq<string>)
    requires k < |props|
    requires LowerProp(props[k], c) == Lowered(t, c1)
    ensures var rest := LowerProps(props[k + 1..], c1);
      && LowerProps(props[k..], c).ctx == rest.ctx
      && done + LowerProps(props[k..], c).texts == (done + [t]) + rest.texts
  {
    assert props[k..][1..] == props[k + 1..];
    var rest := LowerProps(props[k + 1..], c1);
    assert done + ([t] + rest.texts) == (done + [t]) + rest.texts;
  }

  /** visit_Property, or visit_RestElement with isObject=True for a rest entry. */
  function LowerProp(p: Prop, c: Ctx): (r: Lowered)
    ensures Grows(c, r.ctx)
    decreases p
  {
    match p
    case RestProperty(a) =>
      var x := Lower(a, c);
      Lowered("**" + x.text, x.ctx)
    case Property(key, value) =>
      var k := Lower(key, c);
      var keyText := if key.Identifier? then "'" + k.text + "'" else k.text;
      if value.FunctionExpression? then
        var c1 := Bumped(k.ctx);
        var k2 := Lower(key, c1);
        var name := PropertyFunctionName(k2.text, c1.counter);
        var f := LowerFunctionExpression(value, name, k2.ctx);
        Lowered(keyText + ": " + name, f.ctx)
      else
        var v := Lower(value, k.ctx);
        Lowered(keyText + ": " + v.text, v.ctx)
  }

  /** A concise arrow body is written on its own indented line. */
  predicate ConciseBody(fn: Node)
  {
    fn.ArrowFunctionExpression? && fn.concise
  }

  /** visit_FunctionExpression: name the function (the caller's name, or a fresh
      `_anonymous_func_<n>`), lower it as a declaration with `this, arguments` in front
      of its parameters, append the declaration to the active buffer, return the name. */
  function LowerFunctionExpression(fn: Node, name: string, c: Ctx): (r: Lowered)
    requires IsFunctionLiteral(fn)
    ensures Grows(c, r.ctx)
    decreases fn, 2
  {
    var c1 := if name != "" then c else Bumped(c);
    var nm := if name != "" then name else AnonName(c1.counter);
    var ps := LowerList(fn.params, c1);
    var head := FunctionHead(IndentOf(c1), fn.isAsync, nm, ["this", "arguments"] + ps.texts);
    var f := LowerFunctionBody(head, fn.body, ConciseBody(fn), ps.ctx);
    Lowered(nm, Hoisted(f.ctx, f.text))
  }

  /** LowerFunctionExpression in terms of what the function's parameters and body lower to. */
  lemma FunctionExpressionAt(fn: Node, name: string, c: Ctx, ps: LoweredSeq, f: Lowered)
    requires IsFunctionLiteral(fn)
    requires ps == LowerList(fn.params, if name != "" then c else Bumped(c))
    requires f == LowerFunctionBody(FunctionHead(IndentOf(c), fn.isAsync, if name != "" then name else AnonName(c.counter + 1),
                                                 ["this", "arguments"] + ps.texts), fn.body, ConciseBody(fn), ps.ctx)
    ensures LowerFunctionExpression(fn, name, c)
            == Lowered(if name != "" then name else AnonName(c.counter + 1), Hoisted(f.ctx, f.text))
  {
    assert IndentOf(if name != "" then c else Bumped(c)) == IndentOf(c);
  }

  /** The second half of visit_FunctionDeclaration: open a scope with an empty buffer,
      lower the body, restore the buffer that was active, and splice the fragments the
      body hoisted in front of it. */
  function LowerFunctionBody(head: string, body: Node, concise: bool, c: Ctx): (r: Lowered)
    ensures Grows(c, r.ctx)
    ensures r.ctx.heads == c.heads
    decreases body, 5
  {
    var inner := WithHeads(Indented(c), []);
    var pre := if concise then IndentOf(inner) else "";
    var b := Lower(body, inner);
    var out := Dedented(WithHeads(b.ctx, c.heads));
    Lowered(head + Spliced(b.ctx.heads, IndentOf(out)) + pre + b.text, out)
  }

  /** LowerFunctionBody in terms of what the body lowers to. */
  lemma FunctionBodyAt(head: string, body: Node, concise: bool, c: Ctx, b: Lowered)
    requires Lower(body, WithHeads(Indented(c), [])) == b
    ensures var out := Dedented(WithHeads(b.ctx, c.heads));
      var pre := if concise then IndentOf(WithHeads(Indented(c), [])) else "";
      LowerFunctionBody(head, body, concise, c) == Lowered(head + Spliced(b.ctx.heads, IndentOf(out)) + pre + b.text, out)
  {
  }

  /** visit_FunctionDeclaration (and visit_AsyncFunctionDeclaration). */
  function LowerFunctionDeclaration(n: Node, c: Ctx): (r: Lowered)
    requires n.FunctionDeclaration?
    ensures Grows(c, r.ctx)
    decreases n, 2
  {
    var id := Lower(n.id, c);
    var ps := LowerList(n.params, id.ctx);
    LowerFunctionBody(FunctionHead(IndentOf(c), n.isAsync, id.text, ps.texts), n.body, false, ps.ctx)
  }

  /** visit_AssignmentExpression with the operator token `op` (also reached from
      visit_AssignmentPattern with `=` and from visit_BinaryExpression). */
  function LowerAssignment(n: Node, op: string, c: Ctx): (r: Lowered)
    requires n.AssignmentExpression? || n.AssignmentPattern? || n.BinaryExpression?
    ensures Grows(c, r.ctx)
    decreases n, 2
  {
    var x := Lower(n.left, c);
    var y := Lower(n.right, x.ctx);
    Lowered(x.text + " " + op + " " + y.text, y.ctx)
  }

  /** BaseStatement for `key` (`return`, `yield`, `raise`) and a present argument `a`. */
  function LowerBase(key: string, a: Node, c: Ctx): (r: Lowered)
    ensures Grows(c, r.ctx)
    decreases a, 5
  {
    if a.SequenceExpression? then
      if a.rest == [] then
        var last := Lower(a.first, c);
        Lowered("\n" + IndentOf(c) + key + " " + last.text, last.ctx)
      else
        var f := Lower(a.first, c);
        var mid := LowerList(a.rest[..|a.rest| - 1], f.ctx);
        var last := Lower(a.rest[|a.rest| - 1], mid.ctx);
        Lowered(Join("; ", [f.text] + mid.texts) + "\n" + IndentOf(c) + key + " " + last.text, last.ctx)
    else if a.UnaryExpression? || a.UpdateExpression? then
      var x := Lower(a, c);
      var y := Lower(a.argument, x.ctx);
      Lowered(x.text + "\n" + IndentOf(c) + key + " " + y.text, y.ctx)
    else if a.AssignmentExpression? then
      var x := Lower(a, c);
      Lowered(x.text + "\n" + IndentOf(c) + key + " None", x.ctx)
    else
      var x := Lower(a, c);
      Lowered(key + " " + x.text, x.ctx)
  }

  /** visit_BlockStatement. */
  function LowerBlock(n: Node, c: Ctx): (r: Lowered)
    requires n.BlockStatement?
    ensures Grows(c, r.ctx)
    decreases n, 2
  {
    if n.statements == [] then Lowered(IndentOf(c) + "pass", c)
    else
      var r := LowerStatements(n.statements, c);
      Lowered("\n" + Join("\n", r.texts), r.ctx)
  }

  /** The lines of a block: each statement after the indentation, a `use strict`
      directive as the empty text. */
  function LowerStatements(ss: seq<Node>, c: Ctx): (r: LoweredSeq)
    ensures Grows(c, r.ctx)
    ensures |r.texts| == |ss|
    decreases ss
  {
    if ss == [] then LoweredSeq([], c)
    else
      var x := if IsUseStrict(ss[0]) then Lowered("", c)
               else var y := Lower(ss[0], c); Lowered(IndentOf(c) + y.text, y.ctx);
      var rest := LowerStatements(ss[1..], x.ctx);
      LoweredSeq([x.text] + rest.texts, rest.ctx)
  }

  /** One step of LowerStatements from position `k`, given the line for `ss[k]`. */
  lemma StatementsAt(ss: seq<Node>, k: nat, c: Ctx, line: string, c1: Ctx, done: seq<string>)
    requires k < |ss|
    requires (if IsUseStrict(ss[k]) then Lowered("", c)
              else var y := Lower(ss[k], c); Lowered(IndentOf(c) + y.text, y.ctx)) == Lowered(line, c1)
    ensures var rest := LowerStatements(ss[k + 1..], c1);
      && LowerStatements(ss[k..], c).ctx == rest.ctx
      && done + LowerStatements(ss[k..], c).texts == (done + [line]) + rest.texts
  {
    assert ss[k..][1..] == ss[k + 1..];
    var rest := LowerStatements(ss[k + 1..], c1);
    assert done + ([line] + rest.texts) == (done + [line]) + rest.texts;
  }

  /** visit_IfStatement. */
  function LowerIf(n: Node, c: Ctx): (r: Lowered)
    requires n.IfStatement?
    ensures Grows(c, r.ctx)
    decreases n, 2
  {
    var t := Lower(n.test, c);
    var inner := WithHeads(Indented(t.ctx), []);
    var pre := if n.consequent.BlockStatement? then "" else IndentOf(inner);
    var b := Lower(n.consequent, inner);
    var c2 := Dedented(WithHeads(b.ctx, t.ctx.heads));
    var alt := LowerElse(n.alternate, c2);
    Lowered("if " + t.text + ":\n" + Join(IndentOf(c2), Suffixed(b.ctx.heads, "\n")) + pre + b.text + alt.text, alt.ctx)
  }

  /** The alternate of an if statement: nothing at all for an `else if`, otherwise an
      `else:` arm lowered one level deeper. */
  function LowerElse(alt: Option<Node>, c: Ctx): (r: Lowered)
    ensures Grows(c, r.ctx)
    decreases alt
  {
    match alt
    case None => Lowered("", c)
    case Some(a) =>
      if a.IfStatement? then Lowered("", c)
      else
        var b := Lower(a, Indented(c));
        Lowered("\n" + IndentOf(c) + "else:\n" + b.text, Dedented(b.ctx))
  }

  /** visit_SwitchStatement. */
  function LowerSwitch(n: Node, c: Ctx): (r: Lowered)
    requires n.SwitchStatement?
    ensures Grows(c, r.ctx)
    decreases n, 2
  {
    var d := Lower(n.discriminant, c);
    var cs := LowerCases(n.cases, Indented(d.ctx));
    Lowered("match " + d.text + ":\n" + Join("\n", Prefixed(IndentOf(cs.ctx), cs.texts)), Dedented(cs.ctx))
  }

  function LowerCases(cs: seq<SwitchCase>, c: Ctx): (r: LoweredSeq)
    ensures Grows(c, r.ctx)
    ensures |r.texts| == |cs|
    decreases cs
  {
    if cs == [] then LoweredSeq([], c)
    else
      var x := LowerCase(cs[0], c);
      var rest := LowerCases(cs[1..], x.ctx);
      LoweredSeq([x.text] + rest.texts, rest.ctx)
  }

  /** One step of LowerCases from position `k`, given what `cs[k]` lowers to, with the
      texts `done` produced before position `k`. */
  lemma CasesAt(cs: seq<SwitchCase>, k: nat, c: Ctx, t: string, c1: Ctx, done: seq<string>)
    requires k < |cs|
    requires LowerCase(cs[k], c) == Lowered(t, c1)
    ensures var rest := LowerCases(cs[k + 1..], c1);
      && LowerCases(cs[k..], c).ctx == rest.ctx
      && done + LowerCases(cs[k..], c).texts == (done + [t]) + rest.texts
  {
    assert cs[k..][1..] == cs[k + 1..];
    var rest := LowerCases(cs[k + 1..], c1);
    assert done + ([t] + rest.texts) == (done + [t]) + rest.texts;
  }

  /** visit_SwitchCase. */
  function LowerCase(sc: SwitchCase, c: Ctx): (r: Lowered)
    ensures Grows(c, r.ctx)
    decreases sc
  {
    var h := if sc.test.None? then Lowered("default:\n", c)
             else var t := Lower(sc.test.value, c); Lowered("case " + t.text + ":\n", t.ctx);
    var items := LowerList(sc.consequent, Indented(h.ctx));
    Lowered(h.text + Join("\n", Prefixed(IndentOf(items.ctx), items.texts)), Dedented(items.ctx))
  }

  /** visit_VariableDeclaration; `dflt` is false only for the head of a for-in loop. */
  function LowerDeclaration(n: Node, dflt: bool, c: Ctx): (r: Lowered)
    requires n.VariableDeclaration?
    ensures Grows(c, r.ctx)
    decreases n, 2
  {
    var ds := LowerDeclarators(n.declarations, dflt, c);
    Lowered("\n" + Concat(Prefixed("\n" + IndentOf(ds.ctx), ds.texts)), ds.ctx)
  }

  function LowerDeclarators(ds: seq<Declarator>, dflt: bool, c: Ctx): (r: LoweredSeq)
    ensures Grows(c, r.ctx)
    ensures |r.texts| == |ds|
    decreases ds
  {
    if ds == [] then LoweredSeq([], c)
    else
      var x := LowerDeclarator(ds[0], dflt, c);
      var rest := LowerDeclarators(ds[1..], dflt, x.ctx);
      LoweredSeq([x.text] + rest.texts, rest.ctx)
  }

  /** One step of LowerDeclarators from position `k`, given what `ds[k]` lowers to, with the
      texts `done` produced before position `k`. */
  lemma DeclaratorsAt(ds: seq<Declarator>, k: nat, dflt: bool, c: Ctx, t: string, c1: Ctx, done: seq<string>)
    requires k < |ds|
    requires LowerDeclarator(ds[k], dflt, c) == Lowered(t, c1)
    ensures var rest := LowerDeclarators(ds[k + 1..], dflt, c1);
      && LowerDeclarators(ds[k..], dflt, c).ctx == rest.ctx
      && done + LowerDeclarators(ds[k..], dflt, c).texts == (done + [t]) + rest.texts
  {
    assert ds[k..][1..] == ds[k + 1..];
    var rest := LowerDeclarators(ds[k + 1..], dflt, c1);
    assert done + ([t] + rest.texts) == (done + [t]) + rest.texts;
  }

  /** The value side of visit_VariableDeclarator: `None` without an initializer; for a
      function literal, the function is hoisted under the declared name and the value is
      that name; otherwise the lowered initializer. */
  function LowerInit(d: Declarator, c: Ctx): (r: Lowered)
    ensures Grows(c, r.ctx)
    decreases d, 1
  {
    match d.init
    case None => Lowered("None", c)
    case Some(x) =>
      if IsFunctionLiteral(x) then
        var name := Lower(d.id, c);
        var f := LowerFunctionExpression(x, name.text, name.ctx);
        Lowered(name.text, f.ctx)
      else Lower(x, c)
  }

  /** visit_VariableDeclarator. An object pattern hoists `_temp_<n> = value` and one copy
      per property, and its own text is only the list of tails, printed as a list. */
  function LowerDeclarator(d: Declarator, dflt: bool, c: Ctx): (r: Lowered)
    ensures Grows(c, r.ctx)
    decreases d, 2
  {
    var v := LowerInit(d, c);
    if d.id.ObjectPattern? then
      var c1 := Bumped(v.ctx);
      var temp := TempName(c1.counter);
      var cp := LowerCopies(d.id.properties, temp, Hoisted(c1, temp + " = " + v.text));
      Lowered("\n" + IndentOf(cp) + DelTails(temp), cp)
    else
      var k := Lower(d.id, v.ctx);
      var main := if dflt then k.text + " = " + v.text else k.text;
      Lowered(if k.text != "" then main else "", k.ctx)
  }

  /** LowerInit for a function literal, given what the name and the function lower to. */
  lemma FunctionValueAt(d: Declarator, c: Ctx, name: Lowered, f: Lowered)
    requires d.init.Some? && IsFunctionLiteral(d.init.value)
    requires name == Lower(d.id, c)
    requires f == LowerFunctionExpression(d.init.value, name.text, name.ctx)
    ensures LowerInit(d, c) == Lowered(name.text, f.ctx)
  {
  }

  /** LowerDeclarator for a plain target, given the value and the target's lowering. */
  lemma PlainDeclaratorAt(d: Declarator, dflt: bool, c: Ctx, v: Lowered, k: Lowered)
    requires !d.id.ObjectPattern?
    requires v == LowerInit(d, c)
    requires k == Lower(d.id, v.ctx)
    ensures LowerDeclarator(d, dflt, c)
            == Lowered(if k.text != "" then (if dflt then k.text + " = " + v.text else k.text) else "", k.ctx)
  {
  }

  /** LowerDeclarator for an object pattern, given the value and the copies' lowering. */
  lemma PatternDeclaratorAt(d: Declarator, dflt: bool, c: Ctx, v: Lowered, temp: string, cp: Ctx)
    requires d.id.ObjectPattern?
    requires v == LowerInit(d, c)
    requires temp == TempName(v.ctx.counter + 1)
    requires cp == LowerCopies(d.id.properties, temp, Hoisted(Bumped(v.ctx), temp + " = " + v.text))
    ensures LowerDeclarator(d, dflt, c) == Lowered("\n" + IndentOf(cp) + DelTails(temp), cp)
  {
  }

  /** `str(tails)` for the one-element list `['del <temp>']`; Properties.DelTail proves
      this is Python's `str` of that list for every temporary the visitor names. */
  function DelTails(temp: string): string
  {
    "['del " + temp + "']"
  }

  /** One `key = temp.key` line per property of a destructuring pattern, in order; a
      rest entry has no key, which the visit prints as `None`. */
  function LowerCopies(props: seq<Prop>, temp: string, c: Ctx): (r: Ctx)
    ensures Grows(c, r)
    decreases props
  {
    if props == [] then c
    else
      var k := PropKey(props[0], c);
      LowerCopies(props[1..], temp, Hoisted(k.ctx, k.text + " = " + temp + "." + k.text))
  }

  function PropKey(p: Prop, c: Ctx): (r: Lowered)
    ensures Grows(c, r.ctx)
    decreases p
  {
    match p
    case Property(key, _) => Lower(key, c)
    case RestProperty(_) => Lowered("None", c)
  }

  /** visit_CallExpression (and visit_NewExpression, which calls it). */
  function LowerCall(n: Node, c: Ctx): (r: Lowered)
    requires n.CallExpression? || n.NewExpression?
    ensures Grows(c, r.ctx)
    decreases n, 2
  {
    var callee := LowerCallPart(n.callee, c);
    var args := LowerArgs(n.arguments, callee.ctx);
    Lowered(callee.text + "(" + Join(", ", args.texts) + ")", args.ctx)
  }

  /** A callee or argument: a function literal is hoisted under a fresh
      `_anonymous_func_<n>` and replaced by that name. */
  function LowerCallPart(x: Node, c: Ctx): (r: Lowered)
    ensures Grows(c, r.ctx)
    decreases x, 5
  {
    if IsFunctionLiteral(x) then
      var c1 := Bumped(c);
      var name := AnonName(c1.counter);
      var f := LowerFunctionExpression(x, name, c1);
      Lowered(name, f.ctx)
    else Lower(x, c)
  }

  function LowerArgs(xs: seq<Node>, c: Ctx): (r: LoweredSeq)
    ensures Grows(c, r.ctx)
    ensures |r.texts| == |xs|
    decreases xs
  {
    if xs == [] then LoweredSeq([], c)
    else
      var x := LowerCallPart(xs[0], c);
      var rest := LowerArgs(xs[1..], x.ctx);
      LoweredSeq([x.text] + rest.texts, rest.ctx)
  }

  /** One step of LowerArgs from position `k`, given what `xs[k]` lowers to, with the
      texts `done` produced before position `k`. */
  lemma ArgsAt(xs: seq<Node>, k: nat, c: Ctx, t: string, c1: Ctx, done: seq<string>)
    requires k < |xs|
    requires LowerCallPart(xs[k], c) == Lowered(t, c1)
    ensures var rest := LowerArgs(xs[k + 1..], c1);
      && LowerArgs(xs[k..], c).ctx == rest.ctx
      && done + LowerArgs(xs[k..], c).texts == (done + [t]) + rest.texts
  {
    assert xs[k..][1..] == xs[k + 1..];
    var rest := LowerArgs(xs[k + 1..], c1);
    assert done + ([t] + rest.texts) == (done + [t]) + rest.texts;
  }

  /** visit_ClassDeclaration: the body is lowered with `in_class` on, which is switched
      off (not restored) afterwards. */
  function LowerClass(n: Node, c: Ctx): (r: Lowered)
    requires n.ClassDeclaration?
    ensures Grows(c, r.ctx)
    ensures !r.ctx.inClass
    decreases n, 2
  {
    var id := Lower(n.id, c);
    var sup := if n.superClass.None? then Lowered("object", id.ctx) else Lower(n.superClass.value, id.ctx);
    var body := LowerClassBody(n.methods, Indented(sup.ctx).(inClass := true));
    Lowered("class " + id.text + "(" + sup.text + "):\n" + body.text, Dedented(body.ctx.(inClass := false)))
  }

  /** visit_ClassBody. */
  function LowerClassBody(ms: seq<MethodDefinition>, c: Ctx): (r: Lowered)
    ensures Grows(c, r.ctx)
    decreases ms, 1
  {
    if ms == [] then Lowered(IndentOf(c) + "pass", c)
    else
      var r := LowerMethods(ms, c);
      Lowered(Join("\n", r.texts), r.ctx)
  }

  function LowerMethods(ms: seq<MethodDefinition>, c: Ctx): (r: LoweredSeq)
    ensures Grows(c, r.ctx)
    ensures |r.texts| == |ms|
    decreases ms, 0
  {
    if ms == [] then LoweredSeq([], c)
    else
      var x := LowerMethod(ms[0], c);
      var rest := LowerMethods(ms[1..], x.ctx);
      LoweredSeq([IndentOf(c) + x.text] + rest.texts, rest.ctx)
  }

  /** One step of LowerMethods from position `k`, given what `ms[k]` lowers to, with the
      texts `done` produced before position `k`. */
  lemma MethodsAt(ms: seq<MethodDefinition>, k: nat, c: Ctx, t: string, c1: Ctx, done: seq<string>)
    requires k < |ms|
    requires LowerMethod(ms[k], c) == Lowered(t, c1)
    ensures var rest := LowerMethods(ms[k + 1..], c1);
      && LowerMethods(ms[k..], c).ctx == rest.ctx
      && done + LowerMethods(ms[k..], c).texts == (done + [IndentOf(c) + t]) + rest.texts
  {
    assert ms[k..][1..] == ms[k + 1..];
    var rest := LowerMethods(ms[k + 1..], c1);
    assert done + ([IndentOf(c) + t] + rest.texts) == (done + [IndentOf(c) + t]) + rest.texts;
  }

  /** visit_MethodDefinition: `self` goes in front of the parameters, the key names the
      function, and a static method gets a `@staticmethod` line first. */
  function LowerMethod(m: MethodDefinition, c: Ctx): (r: Lowered)
    ensures Grows(c, r.ctx)
    decreases m
  {
    var head := if m.isStatic then "@staticmethod\n" + IndentOf(c) else "";
    var key := Lower(m.key, c);
    var ps := LowerList(m.params, key.ctx);
    var f := LowerFunctionBody(FunctionHead(IndentOf(c), m.isAsync, key.text, ["self"] + ps.texts), m.body, false, ps.ctx);
    Lowered(head + f.text, f.ctx)
  }

  /** visit_ForInStatement (and visit_ForOfStatement): a declaration on the left is
      lowered without its `= value` part. */
  function LowerForIn(n: Node, c: Ctx): (r: Lowered)
    requires n.ForInStatement? || n.ForOfStatement?
    ensures Grows(c, r.ctx)
    decreases n, 2
  {
    var l := if n.left.VariableDeclaration? then LowerDeclaration(n.left, false, c) else Lower(n.left, c);
    var rt := Lower(n.right, l.ctx);
    var b := Lower(n.body, Indented(rt.ctx));
    Lowered("for " + l.text + " in " + rt.text + ":\n" + b.text, Dedented(b.ctx))
  }

  /** visit_ForStatement: the initializer, then a `while` whose body ends with the update. */
  function LowerFor(n: Node, c: Ctx): (r: Lowered)
    requires n.ForStatement?
    ensures Grows(c, r.ctx)
    decreases n, 2
  {
    var i := LowerOpt(n.init, "None", c);
    var t := LowerOpt(n.cond, "None", i.ctx);
    var inner := Indented(t.ctx);
    var b := Lower(n.body, inner);
    var u := LowerOpt(n.update, "None", b.ctx);
    Lowered(i.text + "\n" + IndentOf(c) + "while " + t.text + ":\n"
            + IndentOf(inner) + b.text + "\n" + IndentOf(inner) + u.text, Dedented(u.ctx))
  }

  /** visit_WhileStatement (and visit_DoWhileStatement, which calls it). */
  function LowerWhile(n: Node, c: Ctx): (r: Lowered)
    requires n.WhileStatement? || n.DoWhileStatement?
    ensures Grows(c, r.ctx)
    decreases n, 2
  {
    var t := Lower(n.test, c);
    var b := Lower(n.body, Indented(t.ctx));
    Lowered("while " + t.text + ":\n" + b.text, Dedented(b.ctx))
  }

  /** visit_TryStatement: the handler and the finalizer are each put on a new line at the
      statement's own level; the finalizer gets no keyword. */
  function LowerTry(n: Node, c: Ctx): (r: Lowered)
    requires n.TryStatement?
    ensures Grows(c, r.ctx)
    decreases n, 2
  {
    var b := Lower(n.block, Indented(c));
    var c1 := Dedented(b.ctx);
    var h := if n.handler.None? then Lowered("", c1)
             else var k := LowerCatch(n.handler.value, c1); Lowered("\n" + IndentOf(c1) + k.text, k.ctx);
    var f := if n.finalizer.None? then Lowered("", h.ctx)
             else var x := Lower(n.finalizer.value, h.ctx); Lowered("\n" + IndentOf(h.ctx) + x.text, x.ctx);
    Lowered("try:\n" + b.text + h.text + f.text, f.ctx)
  }

  /** visit_CatchClause. */
  function LowerCatch(k: CatchClause, c: Ctx): (r: Lowered)
    ensures Grows(c, r.ctx)
    decreases k
  {
    var p := LowerOpt(k.param, "None", c);
    var b := Lower(k.body, Indented(p.ctx));
    Lowered("except Exception as " + p.text + ":\n" + b.text, Dedented(b.ctx))
  }
}

/** `JsVisitor` itself: a class holding the fields the visitor updates in place, with one
    method per lowering rule. Each method is proved to return, and to leave the fields
    in, exactly what the matching function of module Lowering describes, so every
    property proved about those functions holds of the visitor. */
module Visitor {
  import opened Options
  import opened Strings
  import opened Ast
  import opened Tokens
  import opened Lowering

  class JsVisitor {
    var indentLevel: int
    var inClass: bool
    /** The name counter (`i` in the visitor). */
    var counter: int
    var heads: seq<string>
    var oldHeads: seq<string>

    /** The fields, as the value the specification functions work on. */
    function State(): Ctx
      reads this
    {
      Ctx(indentLevel, inClass, counter, heads, oldHeads)
    }

    /** A fresh visitor starts at level 0, outside any class, with the counter at -1 and
        the preamble as the only buffered fragment. */
    constructor ()
      ensures State() == Initial
    {
      indentLevel := 0;
      inClass := false;
      counter := -1;
      heads := [Preamble];
      oldHeads := [];
    }

    /** getIndent: four spaces per level. */
    function GetIndent(): (r: string)
      reads this
      ensures |r| == if indentLevel > 0 then 4 * indentLevel else 0
      ensures forall k :: 0 <= k < |r| ==> r[k] == ' '
    {
      IndentText(indentLevel)
    }

    method Indent()
      modifies this
      ensures State() == Indented(old(State()))
    {
      indentLevel := indentLevel + 1;
    }

    method Dedent()
      modifies this
      ensures State() == Dedented(old(State()))
    {
      indentLevel := indentLevel - 1;
    }

    method SetHeads(h: seq<string>)
      modifies this
      ensures State() == WithHeads(old(State()), h)
    {
      oldHeads := heads;
      heads := h;
    }

    method UnSetHeads()
      modifies this
      ensures State() == WithoutHeads(old(State()))
    {
      heads := oldHeads;
    }

    /** randnum: the number handed out is above every number handed out before. */
    method Randnum() returns (r: int)
      modifies this
      ensures State() == Bumped(old(State()))
      ensures r == counter && r > old(counter)
    {
      counter := counter + 1;
      r := counter;
    }

    /** `self.heads.append(fragment)`. */
    method Append(fragment: string)
      modifies this
      ensures State() == Hoisted(old(State()), fragment)
    {
      heads := heads + [fragment];
    }

    /** visit: dispatch on the node's class. */
    method Visit(n: Node) returns (s: string)
      modifies this
      ensures Lowered(s, State()) == Lower(n, old(State()))
      decreases n, 4
    {
      if IsStatement(n) {
        if IsForLoop(n) {
          s := VisitForLoop(n);
        } else if n.WhileStatement? || n.DoWhileStatement? {
          s := VisitWhileStatement(n);
        } else if OpensBlock(n) {
          s := VisitBlockOpener(n);
        } else if IsDeclaration(n) {
          s := VisitDeclaration(n);
        } else {
          s := VisitSimpleStatement(n);
        }
      } else if IsOperator(n) {
        s := VisitOperator(n);
      } else if IsCallOrMember(n) {
        s := VisitCallOrMember(n);
      } else {
        s := VisitPrimary(n);
      }
    }

    /** Names, literals, patterns and function literals. */
    method VisitPrimary(n: Node) returns (s: string)
      requires !IsStatement(n) && !IsOperator(n) && !IsCallOrMember(n)
      modifies this
      ensures Lowered(s, State()) == LowerExpression(n, old(State()))
      decreases n, 3
    {
      match n
      case Identifier(name) => s := IdentifierName(name);
      case Literal(v) => s := LiteralText(v);
      case TemplateLiteral(_, _) => s := VisitTemplateLiteral(n);
      case ThisExpression => s := if inClass then "self" else "this";
      case ArrayExpression(_) =>
        var body := VisitArrayPattern(n);
        s := "Js([" + body + "])";
      case ArrayPattern(_) => s := VisitArrayPattern(n);
      case ObjectExpression(_) => s := VisitObjectPattern(n);
      case ObjectPattern(_) => s := VisitObjectPattern(n);
      case FunctionExpression(_, _, _) => s := VisitFunctionExpression(n, "");
      case ArrowFunctionExpression(_, _, _, _) => s := VisitFunctionExpression(n, "_");
      case RestElement(_) => s := VisitRestElement(n);
      case SpreadElement(_) => s := VisitRestElement(n);
      case YieldExpression(arg) =>
        if arg.None? {
          s := "yield None";
        } else {
          s := BaseStatement("yield", arg.value);
        }
    }

    /** Operator expressions. */
    method VisitOperator(n: Node) returns (s: string)
      requires IsOperator(n)
      modifies this
      ensures Lowered(s, State()) == LowerExpression(n, old(State()))
      decreases n, 3
    {
      match n
      case AssignmentPattern(_, _) => s := VisitAssignmentExpression(n, "=");
      case AssignmentExpression(op, _, _) => s := VisitAssignmentExpression(n, op);
      case BinaryExpression(op, _, _) => s := VisitAssignmentExpression(n, BinaryOp(op));
      case UnaryExpression(_, _, _) => s := VisitUnaryExpression(n);
      case UpdateExpression(_, _, _) => s := VisitUpdateExpression(n);
      case ConditionalExpression(_, _, _) => s := VisitConditionalExpression(n);
      case SequenceExpression(_, _) => s := VisitSequenceExpression(n);
    }

    /** Calls and member accesses. */
    method VisitCallOrMember(n: Node) returns (s: string)
      requires IsCallOrMember(n)
      modifies this
      ensures Lowered(s, State()) == LowerExpression(n, old(State()))
      decreases n, 3
    {
      match n
      case CallExpression(_, _) => s := VisitCallExpression(n);
      case NewExpression(_, _) => s := VisitCallExpression(n);
      case StaticMemberExpression(_, _) => s := VisitMemberExpression(n);
      case ComputedMemberExpression(_, _) => s := VisitMemberExpression(n);
    }

    /** Statements that open no block of their own. */
    method VisitSimpleStatement(n: Node) returns (s: string)
      requires IsStatement(n) && !IsForLoop(n) && !n.WhileStatement? && !n.DoWhileStatement? && !OpensBlock(n) && !IsDeclaration(n)
      modifies this
      ensures Lowered(s, State()) == LowerStatement(n, old(State()))
      decreases n, 3
    {
      match n
      case ExpressionStatement(e) => s := Visit(e);
      case Directive(_, dump) => s := dump;
      case BlockStatement(_) => s := VisitBlockStatement(n);
      case EmptyStatement => s := "";
      case BreakStatement => s := "break";
      case ContinueStatement => s := "continue";
      case ReturnStatement(arg) =>
        if arg.None? {
          s := "return None";
        } else {
          s := BaseStatement("return", arg.value);
        }
      case ThrowStatement(a) => s := BaseStatement("raise", a);
      case Unhandled(dump) => s := dump;
    }

    /** The `for` loops. */
    method VisitForLoop(n: Node) returns (s: string)
      requires IsForLoop(n)
      modifies this
      ensures Lowered(s, State()) == LowerStatement(n, old(State()))
      decreases n, 3
    {
      match n
      case ForStatement(_, _, _, _) => s := VisitForStatement(n);
      case ForInStatement(_, _, _) => s := VisitForInStatement(n);
      case ForOfStatement(_, _, _) => s := VisitForInStatement(n);
    }

    /** The other statements that open an indented block. */
    method VisitBlockOpener(n: Node) returns (s: string)
      requires OpensBlock(n)
      modifies this
      ensures Lowered(s, State()) == LowerStatement(n, old(State()))
      decreases n, 3
    {
      match n
      case IfStatement(_, _, _) => s := VisitIfStatement(n);
      case SwitchStatement(_, _) => s := VisitSwitchStatement(n);
      case TryStatement(_, _, _) => s := VisitTryStatement(n);
    }

    /** Variable, function and class declarations. */
    method VisitDeclaration(n: Node) returns (s: string)
      requires IsDeclaration(n)
      modifies this
      ensures Lowered(s, State()) == LowerStatement(n, old(State()))
      decreases n, 3
    {
      match n
      case VariableDeclaration(_) => s := VisitVariableDeclaration(n, true);
      case FunctionDeclaration(_, _, _, _) => s := VisitFunctionDeclaration(n);
      case ClassDeclaration(_, _, _) => s := VisitClassDeclaration(n);
    }

    /** visit_Script. */
    method VisitScript(body: seq<Node>) returns (out: seq<string>)
      modifies this
      ensures LoweredSeq(out, State()) == LowerScript(body, old(State()))
    {
      var ret := VisitAll(body);
      out := heads + ret;
    }

    /** Visit each node in order. */
    method VisitAll(ns: seq<Node>) returns (texts: seq<string>)
      modifies this
      ensures LoweredSeq(texts, State()) == LowerList(ns, old(State()))
      decreases ns
    {
      ghost var c0 := State();
      texts := [];
      var k := 0;
      while k < |ns|
        invariant k <= |ns|
        invariant texts + LowerList(ns[k..], State()).texts == LowerList(ns, c0).texts
        invariant LowerList(ns[k..], State()).ctx == LowerList(ns, c0).ctx
      {
        ghost var c := State();
        var t := Visit(ns[k]);
        ListAt(ns, k, c, t, State(), texts);
        texts := texts + [t];
        k := k + 1;
      }
    }

    /** A child that may be absent, printed as `absent` when it is (`None` for an
        attribute that is `None`, the empty text for an array elision). */
    method VisitOpt(o: Option<Node>, absent: string) returns (s: string)
      modifies this
      ensures Lowered(s, State()) == LowerOpt(o, absent, old(State()))
      decreases o
    {
      match o
      case None => s := absent;
      case Some(x) => s := Visit(x);
    }

    method VisitTemplateLiteral(n: Node) returns (s: string)
      requires n.TemplateLiteral?
      modifies this
      ensures Lowered(s, State()) == LowerExpression(n, old(State()))
      decreases n, 2
    {
      ghost var c0 := State();
      var ret := "f\"\"\"";
      var i := 0;
      while i < |n.quasis|
        invariant i <= |n.quasis|
        invariant ret + LowerQuasis(n.quasis, n.expressions, i, State()).text
                  == "f\"\"\"" + LowerQuasis(n.quasis, n.expressions, 0, c0).text
        invariant LowerQuasis(n.quasis, n.expressions, i, State()).ctx
                  == LowerQuasis(n.quasis, n.expressions, 0, c0).ctx
      {
        ghost var c := State();
        var ex := "";
        if i < |n.expressions| {
          var e := Visit(n.expressions[i]);
          ex := "{" + e + "}";
        }
        QuasisAt(n.quasis, n.expressions, i, c, ex, State(), ret);
        ret := ret + n.quasis[i] + ex;
        i := i + 1;
      }
      s := ret + "\"\"\"";
    }

    /** visit_ArrayPattern (visit_ArrayExpression wraps its result in `Js([...])`). */
    method VisitArrayPattern(n: Node) returns (s: string)
      requires n.ArrayPattern? || n.ArrayExpression?
      modifies this
      ensures Lowered(s, State()) == LowerExpression(ArrayPattern(n.elements), old(State()))
      decreases n, 2
    {
      var texts := VisitElements(n.elements);
      s := Join(", ", texts);
    }

    method VisitElements(els: seq<Option<Node>>) returns (texts: seq<string>)
      modifies this
      ensures LoweredSeq(texts, State()) == LowerElements(els, old(State()))
      decreases els
    {
      ghost var c0 := State();
      texts := [];
      var k := 0;
      while k < |els|
        invariant k <= |els|
        invariant texts + LowerElements(els[k..], State()).texts == LowerElements(els, c0).texts
        invariant LowerElements(els[k..], State()).ctx == LowerElements(els, c0).ctx
      {
        ghost var c := State();
        var t := VisitOpt(els[k], "");
        ElementsAt(els, k, c, t, State(), texts);
        texts := texts + [t];
        k := k + 1;
      }
    }

    /** visit_ObjectPattern (visit_ObjectExpression calls it). */
    method VisitObjectPattern(n: Node) returns (s: string)
      requires n.ObjectExpression? || n.ObjectPattern?
      modifies this
      ensures Lowered(s, State()) == LowerObject(n, old(State()))
      decreases n, 2
    {
      var texts := VisitProperties(n.properties);
      s := "{" + Join(", ", texts) + "}";
    }

    method VisitProperties(props: seq<Prop>) returns (texts: seq<string>)
      modifies this
      ensures LoweredSeq(texts, State()) == LowerProps(props, old(State()))
      decreases props
    {
      ghost var c0 := State();
      texts := [];
      var k := 0;
      while k < |props|
        invariant k <= |props|
        invariant texts + LowerProps(props[k..], State()).texts == LowerProps(props, c0).texts
        invariant LowerProps(props[k..], State()).ctx == LowerProps(props, c0).ctx
      {
        ghost var c := State();
        var t := VisitProperty(props[k]);
        PropsAt(props, k, c, t, State(), texts);
        texts := texts + [t];
        k := k + 1;
      }
    }

    /** visit_Property, or visit_RestElement with isObject=True for a rest entry. */
    method VisitProperty(p: Prop) returns (s: string)
      modifies this
      ensures Lowered(s, State()) == LowerProp(p, old(State()))
      decreases p
    {
      match p
      case RestProperty(a) =>
        var x := Visit(a);
        s := "**" + x;
      case Property(key, value) =>
        var k := Visit(key);
        if key.Identifier? {
          k := "'" + k + "'";
        }
        if value.FunctionExpression? {
          var num := Randnum();
          var k2 := Visit(key);
          var name := PropertyFunctionName(k2, num);
          var _ := VisitFunctionExpression(value, name);
          s := k + ": " + name;
        } else {
          var v := Visit(value);
          s := k + ": " + v;
        }
    }

    /** visit_RestElement and visit_SpreadElement outside an object. */
    method VisitRestElement(n: Node) returns (s: string)
      requires n.RestElement? || n.SpreadElement?
      modifies this
      ensures Lowered(s, State()) == LowerExpression(n, old(State()))
      decreases n, 2
    {
      var a := Visit(n.argument);
      s := "*" + a;
    }

    /** visit_FunctionExpression (visit_ArrowFunctionExpression passes the name `_`). */
    method VisitFunctionExpression(fn: Node, name: string) returns (nm: string)
      requires IsFunctionLiteral(fn)
      modifies this
      ensures Lowered(nm, State()) == LowerFunctionExpression(fn, name, old(State()))
      decreases fn, 2
    {
      if name != "" {
        nm := name;
      } else {
        var num := Randnum();
        nm := AnonName(num);
      }
      var indent := GetIndent();
      var ps := VisitAll(fn.params);
      var body := FunctionBody(FunctionHead(indent, fn.isAsync, nm, ["this", "arguments"] + ps), fn.body, ConciseBody(fn));
      Append(body);
    }

    /** The scoped half of visit_FunctionDeclaration: the body is lowered one level deeper
        into a buffer of its own, and what it buffered is spliced in front of it. */
    method FunctionBody(head: string, body: Node, concise: bool) returns (s: string)
      modifies this
      ensures Lowered(s, State()) == LowerFunctionBody(head, body, concise, old(State()))
      decreases body, 5
    {
      ghost var c0 := State();
      var saved := heads;
      Indent();
      SetHeads([]);
      var pre := if concise then GetIndent() else "";
      var b := Visit(body);
      ghost var lb := Lowered(b, State());
      var inner := heads;
      SetHeads(saved);
      Dedent();
      s := head + Spliced(inner, GetIndent()) + pre + b;
      FunctionBodyAt(head, body, concise, c0, lb);
    }

    /** visit_FunctionDeclaration (and visit_AsyncFunctionDeclaration). */
    method VisitFunctionDeclaration(n: Node) returns (s: string)
      requires n.FunctionDeclaration?
      modifies this
      ensures Lowered(s, State()) == LowerFunctionDeclaration(n, old(State()))
      decreases n, 2
    {
      var indent := GetIndent();
      var id := Visit(n.id);
      var ps := VisitAll(n.params);
      s := FunctionBody(FunctionHead(indent, n.isAsync, id, ps), n.body, false);
    }

    /** visit_AssignmentExpression with the (already rewritten) operator `op`. */
    method VisitAssignmentExpression(n: Node, op: string) returns (s: string)
      requires n.AssignmentExpression? || n.AssignmentPattern? || n.BinaryExpression?
      modifies this
      ensures Lowered(s, State()) == LowerAssignment(n, op, old(State()))
      decreases n, 2
    {
      var l := Visit(n.left);
      var r := Visit(n.right);
      s := l + " " + op + " " + r;
    }

    method VisitUnaryExpression(n: Node) returns (s: string)
      requires n.UnaryExpression?
      modifies this
      ensures Lowered(s, State()) == LowerExpression(n, old(State()))
      decreases n, 2
    {
      var a := Visit(n.argument);
      s := UnaryText(n.operator, a, n.prefix);
    }

    method VisitUpdateExpression(n: Node) returns (s: string)
      requires n.UpdateExpression?
      modifies this
      ensures Lowered(s, State()) == LowerExpression(n, old(State()))
      decreases n, 2
    {
      var a := Visit(n.argument);
      s := a + UpdateOp(n.operator);
    }

    method VisitConditionalExpression(n: Node) returns (s: string)
      requires n.ConditionalExpression?
      modifies this
      ensures Lowered(s, State()) == LowerExpression(n, old(State()))
      decreases n, 2
    {
      var x := Visit(n.consequent);
      var t := Visit(n.test);
      var y := Visit(n.alternateExpr);
      s := x + " if " + t + " else " + y;
    }

    method VisitSequenceExpression(n: Node) returns (s: string)
      requires n.SequenceExpression?
      modifies this
      ensures Lowered(s, State()) == LowerExpression(n, old(State()))
      decreases n, 2
    {
      var f := Visit(n.first);
      var r := VisitAll(n.rest);
      s := Join("; ", [f] + r);
    }

    /** visit_StaticMemberExpression and visit_ComputedMemberExpression. */
    method VisitMemberExpression(n: Node) returns (s: string)
      requires n.StaticMemberExpression? || n.ComputedMemberExpression?
      modifies this
      ensures Lowered(s, State()) == LowerExpression(n, old(State()))
      decreases n, 2
    {
      var o := Visit(n.obj);
      var p := Visit(n.property);
      s := if n.StaticMemberExpression? then o + "." + p else o + "[" + p + "]";
    }

    /** BaseStatement for a present argument `a`. */
    method BaseStatement(key: string, a: Node) returns (s: string)
      modifies this
      ensures Lowered(s, State()) == LowerBase(key, a, old(State()))
      decreases a, 5
    {
      if a.SequenceExpression? {
        if a.rest == [] {
          var indent := GetIndent();
          var last := Visit(a.first);
          s := "\n" + indent + key + " " + last;
        } else {
          var f := Visit(a.first);
          var mid := VisitAll(a.rest[..|a.rest| - 1]);
          var indent := GetIndent();
          var last := Visit(a.rest[|a.rest| - 1]);
          s := Join("; ", [f] + mid) + "\n" + indent + key + " " + last;
        }
      } else if a.UnaryExpression? || a.UpdateExpression? {
        var x := Visit(a);
        var indent := GetIndent();
        var y := Visit(a.argument);
        s := x + "\n" + indent + key + " " + y;
      } else if a.AssignmentExpression? {
        var x := Visit(a);
        s := x + "\n" + GetIndent() + key + " None";
      } else {
        var x := Visit(a);
        s := key + " " + x;
      }
    }

    method VisitBlockStatement(n: Node) returns (s: string)
      requires n.BlockStatement?
      modifies this
      ensures Lowered(s, State()) == LowerBlock(n, old(State()))
      decreases n, 2
    {
      if n.statements == [] {
        s := GetIndent() + "pass";
      } else {
        var lines := VisitStatements(n.statements);
        s := "\n" + Join("\n", lines);
      }
    }

    method VisitStatements(ss: seq<Node>) returns (lines: seq<string>)
      modifies this
      ensures LoweredSeq(lines, State()) == LowerStatements(ss, old(State()))
      decreases ss
    {
      ghost var c0 := State();
      lines := [];
      var k := 0;
      while k < |ss|
        invariant k <= |ss|
        invariant lines + LowerStatements(ss[k..], State()).texts == LowerStatements(ss, c0).texts
        invariant LowerStatements(ss[k..], State()).ctx == LowerStatements(ss, c0).ctx
      {
        ghost var c := State();
        var line := "";
        if !IsUseStrict(ss[k]) {
          var indent := GetIndent();
          var t := Visit(ss[k]);
          line := indent + t;
        }
        StatementsAt(ss, k, c, line, State(), lines);
        lines := lines + [line];
        k := k + 1;
      }
    }

    method VisitIfStatement(n: Node) returns (s: string)
      requires n.IfStatement?
      modifies this
      ensures Lowered(s, State()) == LowerIf(n, old(State()))
      decreases n, 2
    {
      var t := Visit(n.test);
      var head := "if " + t + ":\n";
      Indent();
      var saved := heads;
      SetHeads([]);
      var pre := if n.consequent.BlockStatement? then "" else GetIndent();
      var body := Visit(n.consequent);
      var inner := heads;
      SetHeads(saved);
      Dedent();
      var alt := "";
      if n.alternate.Some? && !n.alternate.value.IfStatement? {
        var cond := "\n" + GetIndent() + "else:\n";
        Indent();
        var a := Visit(n.alternate.value);
        alt := cond + a;
        Dedent();
      }
      s := head + Join(GetIndent(), Suffixed(inner, "\n")) + pre + body + alt;
    }

    method VisitSwitchStatement(n: Node) returns (s: string)
      requires n.SwitchStatement?
      modifies this
      ensures Lowered(s, State()) == LowerSwitch(n, old(State()))
      decreases n, 2
    {
      var d := Visit(n.discriminant);
      var head := "match " + d + ":\n";
      Indent();
      var cases := VisitCases(n.cases);
      var body := Join("\n", Prefixed(GetIndent(), cases));
      Dedent();
      s := head + body;
    }

    method VisitCases(cs: seq<SwitchCase>) returns (texts: seq<string>)
      modifies this
      ensures LoweredSeq(texts, State()) == LowerCases(cs, old(State()))
      decreases cs
    {
      ghost var c0 := State();
      texts := [];
      var k := 0;
      while k < |cs|
        invariant k <= |cs|
        invariant texts + LowerCases(cs[k..], State()).texts == LowerCases(cs, c0).texts
        invariant LowerCases(cs[k..], State()).ctx == LowerCases(cs, c0).ctx
      {
        ghost var c := State();
        var t := VisitSwitchCase(cs[k]);
        CasesAt(cs, k, c, t, State(), texts);
        texts := texts + [t];
        k := k + 1;
      }
    }

    method VisitSwitchCase(sc: SwitchCase) returns (s: string)
      modifies this
      ensures Lowered(s, State()) == LowerCase(sc, old(State()))
      decreases sc
    {
      var head := "default:\n";
      if sc.test.Some? {
        var t := Visit(sc.test.value);
        head := "case " + t + ":\n";
      }
      Indent();
      var items := VisitAll(sc.consequent);
      var body := Join("\n", Prefixed(GetIndent(), items));
      Dedent();
      s := head + body;
    }

    /** visit_VariableDeclaration; `dflt` is the `default` flag. */
    method VisitVariableDeclaration(n: Node, dflt: bool) returns (s: string)
      requires n.VariableDeclaration?
      modifies this
      ensures Lowered(s, State()) == LowerDeclaration(n, dflt, old(State()))
      decreases n, 2
    {
      var decls := VisitDeclarators(n.declarations, dflt);
      s := "\n" + Concat(Prefixed("\n" + GetIndent(), decls));
    }

    method VisitDeclarators(ds: seq<Declarator>, dflt: bool) returns (texts: seq<string>)
      modifies this
      ensures LoweredSeq(texts, State()) == LowerDeclarators(ds, dflt, old(State()))
      decreases ds
    {
      ghost var c0 := State();
      texts := [];
      var k := 0;
      while k < |ds|
        invariant k <= |ds|
        invariant texts + LowerDeclarators(ds[k..], dflt, State()).texts == LowerDeclarators(ds, dflt, c0).texts
        invariant LowerDeclarators(ds[k..], dflt, State()).ctx == LowerDeclarators(ds, dflt, c0).ctx
      {
        ghost var c := State();
        var t := VisitVariableDeclarator(ds[k], dflt);
        DeclaratorsAt(ds, k, dflt, c, t, State(), texts);
        texts := texts + [t];
        k := k + 1;
      }
    }

    method VisitVariableDeclarator(d: Declarator, dflt: bool) returns (s: string)
      modifies this
      ensures Lowered(s, State()) == LowerDeclarator(d, dflt, old(State()))
      decreases d, 2
    {
      var val := VisitInit(d);
      if d.id.ObjectPattern? {
        var num := Randnum();
        var temp := TempName(num);
        Append(temp + " = " + val);
        VisitCopies(d.id.properties, temp);
        s := "\n" + GetIndent() + DelTails(temp);
      } else {
        var key := Visit(d.id);
        var main := if dflt then key + " = " + val else key;
        s := if key != "" then main else "";
      }
    }

    /** The value a declarator assigns. */
    method VisitInit(d: Declarator) returns (val: string)
      modifies this
      ensures Lowered(val, State()) == LowerInit(d, old(State()))
      decreases d, 1
    {
      match d.init
      case None => val := "None";
      case Some(x) =>
        if IsFunctionLiteral(x) {
          var name := Visit(d.id);
          var _ := VisitFunctionExpression(x, name);
          val := name;
        } else {
          val := Visit(x);
        }
    }

    /** The `k = temp.k` lines of a destructuring declarator. */
    method VisitCopies(props: seq<Prop>, temp: string)
      modifies this
      ensures State() == LowerCopies(props, temp, old(State()))
      decreases props
    {
      ghost var c0 := State();
      var k := 0;
      while k < |props|
        invariant k <= |props|
        invariant LowerCopies(props[k..], temp, State()) == LowerCopies(props, temp, c0)
      {
        assert props[k..][1..] == props[k + 1..];
        var key := VisitKey(props[k]);
        Append(key + " = " + temp + "." + key);
        k := k + 1;
      }
    }

    /** `self.visit(prop.key)`: a rest entry has no key, which prints as `None`. */
    method VisitKey(p: Prop) returns (s: string)
      modifies this
      ensures Lowered(s, State()) == PropKey(p, old(State()))
      decreases p
    {
      match p
      case Property(key, _) => s := Visit(key);
      case RestProperty(_) => s := "None";
    }

    /** visit_CallExpression (visit_NewExpression calls it). */
    method VisitCallExpression(n: Node) returns (s: string)
      requires n.CallExpression? || n.NewExpression?
      modifies this
      ensures Lowered(s, State()) == LowerCall(n, old(State()))
      decreases n, 2
    {
      var callee := CallPart(n.callee);
      var args := VisitArguments(n.arguments);
      s := callee + "(" + Join(", ", args) + ")";
    }

    method VisitArguments(xs: seq<Node>) returns (texts: seq<string>)
      modifies this
      ensures LoweredSeq(texts, State()) == LowerArgs(xs, old(State()))
      decreases xs
    {
      ghost var c0 := State();
      texts := [];
      var k := 0;
      while k < |xs|
        invariant k <= |xs|
        invariant texts + LowerArgs(xs[k..], State()).texts == LowerArgs(xs, c0).texts
        invariant LowerArgs(xs[k..], State()).ctx == LowerArgs(xs, c0).ctx
      {
        ghost var c := State();
        var t := CallPart(xs[k]);
        ArgsAt(xs, k, c, t, State(), texts);
        texts := texts + [t];
        k := k + 1;
      }
    }

    /** A callee or an argument: a function literal is hoisted under a fresh name. */
    method CallPart(x: Node) returns (s: string)
      modifies this
      ensures Lowered(s, State()) == LowerCallPart(x, old(State()))
      decreases x, 5
    {
      if IsFunctionLiteral(x) {
        var num := Randnum();
        s := AnonName(num);
        var _ := VisitFunctionExpression(x, s);
      } else {
        s := Visit(x);
      }
    }

    method VisitClassDeclaration(n: Node) returns (s: string)
      requires n.ClassDeclaration?
      modifies this
      ensures Lowered(s, State()) == LowerClass(n, old(State()))
      decreases n, 2
    {
      var id := Visit(n.id);
      var sup := "object";
      if n.superClass.Some? {
        sup := Visit(n.superClass.value);
      }
      var head := "class " + id + "(" + sup + "):\n";
      Indent();
      inClass := true;
      var body := VisitClassBody(n.methods);
      inClass := false;
      Dedent();
      s := head + body;
    }

    method VisitClassBody(ms: seq<MethodDefinition>) returns (s: string)
      modifies this
      ensures Lowered(s, State()) == LowerClassBody(ms, old(State()))
      decreases ms, 1
    {
      if ms == [] {
        s := GetIndent() + "pass";
      } else {
        ghost var c0 := State();
        var lines := [];
        var k := 0;
        assert ms[k..] == ms;
        while k < |ms|
          invariant k <= |ms|
          invariant lines + LowerMethods(ms[k..], State()).texts == LowerMethods(ms, c0).texts
          invariant LowerMethods(ms[k..], State()).ctx == LowerMethods(ms, c0).ctx
        {
          ghost var c := State();
          var indent := GetIndent();
          var t := VisitMethodDefinition(ms[k]);
          MethodsAt(ms, k, c, t, State(), lines);
          lines := lines + [indent + t];
          k := k + 1;
        }
        assert ms[k..] == [];
        assert lines == LowerMethods(ms, c0).texts;
        assert State() == LowerMethods(ms, c0).ctx;
        s := Join("\n", lines);
      }
    }

    method VisitMethodDefinition(m: MethodDefinition) returns (s: string)
      modifies this
      ensures Lowered(s, State()) == LowerMethod(m, old(State()))
      decreases m
    {
      var head := if m.isStatic then "@staticmethod\n" + GetIndent() else "";
      var indent := GetIndent();
      var key := Visit(m.key);
      var ps := VisitAll(m.params);
      var body := FunctionBody(FunctionHead(indent, m.isAsync, key, ["self"] + ps), m.body, false);
      s := head + body;
    }

    /** visit_ForInStatement (visit_ForOfStatement calls it). */
    method VisitForInStatement(n: Node) returns (s: string)
      requires n.ForInStatement? || n.ForOfStatement?
      modifies this
      ensures Lowered(s, State()) == LowerForIn(n, old(State()))
      decreases n, 2
    {
      var l;
      if n.left.VariableDeclaration? {
        l := VisitVariableDeclaration(n.left, false);
      } else {
        l := Visit(n.left);
      }
      var r := Visit(n.right);
      var head := "for " + l + " in " + r + ":\n";
      Indent();
      var body := Visit(n.body);
      Dedent();
      s := head + body;
    }

    method VisitForStatement(n: Node) returns (s: string)
      requires n.ForStatement?
      modifies this
      ensures Lowered(s, State()) == LowerFor(n, old(State()))
      decreases n, 2
    {
      var init := VisitOpt(n.init, "None");
      var head := init + "\n" + GetIndent();
      var test := VisitOpt(n.cond, "None");
      head := head + "while " + test + ":\n";
      Indent();
      var body := Visit(n.body);
      var indent := GetIndent();
      var update := VisitOpt(n.update, "None");
      body := indent + body + "\n" + indent + update;
      Dedent();
      s := head + body;
    }

    /** visit_WhileStatement (visit_DoWhileStatement calls it). */
    method VisitWhileStatement(n: Node) returns (s: string)
      requires n.WhileStatement? || n.DoWhileStatement?
      modifies this
      ensures Lowered(s, State()) == LowerStatement(n, old(State()))
      decreases n, 2
    {
      var t := Visit(n.test);
      var head := "while " + t + ":\n";
      Indent();
      var body := Visit(n.body);
      Dedent();
      s := head + body;
    }

    method VisitTryStatement(n: Node) returns (s: string)
      requires n.TryStatement?
      modifies this
      ensures Lowered(s, State()) == LowerTry(n, old(State()))
      decreases n, 2
    {
      Indent();
      var body := Visit(n.block);
      Dedent();
      var handler := "";
      if n.handler.Some? {
        var indent := GetIndent();
        var h := VisitCatchClause(n.handler.value);
        handler := "\n" + indent + h;
      }
      var finalizer := "";
      if n.finalizer.Some? {
        var indent := GetIndent();
        var f := Visit(n.finalizer.value);
        finalizer := "\n" + indent + f;
      }
      s := "try:\n" + body + handler + finalizer;
    }

    method VisitCatchClause(k: CatchClause) returns (s: string)
      modifies this
      ensures Lowered(s, State()) == LowerCatch(k, old(State()))
      decreases k
    {
      var p := VisitOpt(k.param, "None");
      var head := "except Exception as " + p + ":\n";
      Indent();
      var body := Visit(k.body);
      Dedent();
      s := head + body;
    }
  }
}

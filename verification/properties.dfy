/** What the lowering rules promise, stated over the specification functions of module
    Lowering (and so, through the method contracts of module Visitor, over the visitor). */
module Properties {
  import opened Options
  import opened Strings
  import opened Ast
  import opened Tokens
  import opened Lowering

  // ----- The rewrite tables -----

  /** Only `&&`, `||`, `===` and `!==` are rewritten, and a rewritten operator is left
      alone by a second rewrite. */
  lemma BinaryOpTable(op: string)
    ensures BinaryOp(op) != op <==> op == "&&" || op == "||" || op == "===" || op == "!=="
    ensures BinaryOp(BinaryOp(op)) == BinaryOp(op)
  {
  }

  /** Only `++` and `--` are rewritten, and a rewritten operator is left alone. */
  lemma UpdateOpTable(op: string)
    ensures UpdateOp(op) != op <==> op == "++" || op == "--"
    ensures UpdateOp(UpdateOp(op)) == UpdateOp(op)
  {
  }

  /** Only `global` and `Error` are renamed; no name is renamed to either of them, so a
      renamed identifier is left alone. */
  lemma IdentifierNameTable(name: string)
    ensures IdentifierName(name) != name <==> name == "global" || name == "Error"
    ensures IdentifierName(name) != "global" && IdentifierName(name) != "Error"
    ensures IdentifierName(IdentifierName(name)) == IdentifierName(name)
  {
  }

  /** `Lower` on a statement is the statement rule, on anything else the expression rule. */
  lemma StatementRule(n: Node, c: Ctx)
    requires IsStatement(n)
    ensures Lower(n, c) == LowerStatement(n, c)
  {
  }

  lemma ExpressionRule(n: Node, c: Ctx)
    requires !IsStatement(n)
    ensures Lower(n, c) == LowerExpression(n, c)
  {
  }

  lemma CallRule(n: Node, c: Ctx)
    requires n.CallExpression? || n.NewExpression?
    ensures Lower(n, c) == LowerCall(n, c)
  {
    if n.CallExpression? {
      CallExpressionRule(n, c);
    } else {
      NewExpressionRule(n, c);
    }
  }

  lemma CallExpressionRule(n: Node, c: Ctx)
    requires n.CallExpression?
    ensures Lower(n, c) == LowerCall(n, c)
  {
    ExpressionRule(n, c);
  }

  lemma NewExpressionRule(n: Node, c: Ctx)
    requires n.NewExpression?
    ensures Lower(n, c) == LowerCall(n, c)
  {
    ExpressionRule(n, c);
  }

  lemma LowerIdentifier(name: string, c: Ctx)
    ensures Lower(Identifier(name), c) == Lowered(IdentifierName(name), c)
  {
  }

  /** The source rewrites `node.operator` in place; lowering the rewritten node again gives
      the same result, so modelling the tree as a value loses nothing. */
  lemma RelowerUpdate(op: string, a: Node, prefix: bool, c: Ctx)
    ensures Lower(UpdateExpression(UpdateOp(op), a, prefix), c) == Lower(UpdateExpression(op, a, prefix), c)
  {
    UpdateOpTable(op);
    ExpressionRule(UpdateExpression(UpdateOp(op), a, prefix), c);
    ExpressionRule(UpdateExpression(op, a, prefix), c);
  }

  lemma RelowerBinary(op: string, l: Node, r: Node, c: Ctx)
    ensures Lower(BinaryExpression(BinaryOp(op), l, r), c) == Lower(BinaryExpression(op, l, r), c)
  {
    BinaryOpTable(op);
    ExpressionRule(BinaryExpression(BinaryOp(op), l, r), c);
    ExpressionRule(BinaryExpression(op, l, r), c);
  }

  /** `x++` becomes `x+=1`, with no spaces, and leaves the state alone. */
  lemma IncrementText(x: string, c: Ctx)
    ensures Lower(UpdateExpression("++", Identifier(x), false), c) == Lowered(IdentifierName(x) + "+=1", c)
  {
    var u := UpdateExpression("++", Identifier(x), false);
    assert Lower(u, c) == LowerExpression(u, c) by { ExpressionRule(u, c); }
    LowerIdentifier(x, c);
  }

  /** `new F(a)` is lowered as the call `F(a)`. */
  lemma NewIsCall(callee: Node, args: seq<Node>, c: Ctx)
    ensures Lower(NewExpression(callee, args), c) == Lower(CallExpression(callee, args), c)
  {
    CallRule(NewExpression(callee, args), c);
    CallRule(CallExpression(callee, args), c);
  }

  // ----- Synthesized names -----

  lemma PrefixCancel(p: string, x: string, y: string)
    requires p + x == p + y
    ensures x == y
  {
    assert x == (p + x)[|p|..];
    assert y == (p + y)[|p|..];
  }

  /** Distinct numbers give distinct anonymous-function names. */
  lemma AnonNameInjective(a: int, b: int)
    requires AnonName(a) == AnonName(b)
    ensures a == b
  {
    PrefixCancel("_anonymous_func_", IntToString(a), IntToString(b));
    IntToStringInjective(a, b);
  }

  /** Distinct numbers give distinct temporaries. */
  lemma TempNameInjective(a: int, b: int)
    requires TempName(a) == TempName(b)
    ensures a == b
  {
    PrefixCancel("_temp_", IntToString(a), IntToString(b));
    IntToStringInjective(a, b);
  }

  /** A property-function name is not unique: key `a` with number 11 and key `a1` with
      number 1 give the same name. */
  lemma PropertyFunctionNamesCollide()
    ensures PropertyFunctionName("a", 11) == PropertyFunctionName("a1", 1)
  {
    assert IntToString(11) == "11" by {
      assert NatToString(11) == NatToString(1) + [DigitChar(1)];
    }
  }

  /** A numeric key gives a property-function name that is also an anonymous-function
      name: key `1` with number 2 gives `_anonymous_func_12`, which is `AnonName(12)`. */
  lemma PropertyFunctionNameMeetsAnonName()
    ensures PropertyFunctionName(LiteralText(IntLit(1)), 2) == AnonName(12)
  {
    assert IntToString(12) == "12" by {
      assert NatToString(12) == NatToString(1) + [DigitChar(2)];
    }
  }

  /** A string key is printed with its quotes, so the name is not a Python identifier:
      key `"a"` with number 3 gives `_anonymous_func_'a'3`. */
  lemma StringKeyPropertyFunctionName()
    ensures PropertyFunctionName(LiteralText(StrLit("a")), 3) == "_anonymous_func_'a'3"
  {
    ReprOfPlain("a");
  }

  // ----- Function literals -----

  /** `fragment` starts with the decorated `def` line of a function called `name`. */
  predicate Defines(fragment: string, indent: string, name: string)
  {
    var decorated := "\n" + indent + "@Js\n" + indent;
    decorated + "def " + name + "(" <= fragment || decorated + "async def " + name + "(" <= fragment
  }

  lemma HeadDefines(indent: string, isAsync: bool, name: string, params: seq<string>, rest: string)
    ensures Defines(FunctionHead(indent, isAsync, name, params) + rest, indent, name)
  {
    var decorated := "\n" + indent + "@Js\n" + indent;
    var pre := decorated + (if isAsync then "async " else "") + "def " + name + "(";
    var f := FunctionHead(indent, isAsync, name, params) + rest;
    assert f == pre + (Join(", ", params) + "):\n" + rest);
    assert pre <= f;
    if isAsync {
      assert pre == decorated + "async def " + name + "(";
    } else {
      assert pre == decorated + "def " + name + "(";
    }
  }

  /** A function lowered from a head keeps the head's `def` line in front. */
  lemma BodyDefines(indent: string, isAsync: bool, name: string, params: seq<string>, body: Node, concise: bool, c: Ctx)
    ensures Defines(LowerFunctionBody(FunctionHead(indent, isAsync, name, params), body, concise, c).text, indent, name)
  {
    var inner := WithHeads(Indented(c), []);
    var pre := if concise then IndentOf(inner) else "";
    var b := Lower(body, inner);
    var out := Dedented(WithHeads(b.ctx, c.heads));
    var rest := Spliced(b.ctx.heads, IndentOf(out)) + pre + b.text;
    assert LowerFunctionBody(FunctionHead(indent, isAsync, name, params), body, concise, c).text
           == FunctionHead(indent, isAsync, name, params) + rest;
    HeadDefines(indent, isAsync, name, params, rest);
  }

  lemma BodyDefinesAt(indent: string, isAsync: bool, name: string, params: seq<string>, body: Node, concise: bool, c: Ctx, f: Lowered)
    requires f == LowerFunctionBody(FunctionHead(indent, isAsync, name, params), body, concise, c)
    ensures Defines(f.text, indent, name)
  {
    BodyDefines(indent, isAsync, name, params, body, concise, c);
  }

  /** Plain identifiers as parameters lower to their names and buffer nothing. */
  lemma {:induction false} IdentifierList(ps: seq<Node>, c: Ctx)
    requires forall i :: 0 <= i < |ps| ==> ps[i].Identifier?
    ensures LowerList(ps, c).ctx == c
    ensures forall i :: 0 <= i < |ps| ==> LowerList(ps, c).texts[i] == IdentifierName(ps[i].name)
    decreases ps
  {
    if ps != [] {
      LowerIdentifier(ps[0].name, c);
      IdentifierList(ps[1..], c);
      forall i | 1 <= i < |ps|
        ensures LowerList(ps, c).texts[i] == IdentifierName(ps[i].name)
      {
        assert ps[1..][i - 1] == ps[i];
      }
    }
  }

  /** visit_FunctionExpression returns the caller's name, or a fresh `_anonymous_func_<n>`
      with `n` one above the counter; the last buffered fragment is the decorated
      definition of that name, and everything buffered before stays in place. */
  lemma FunctionExpressionHoists(fn: Node, name: string, c: Ctx)
    requires IsFunctionLiteral(fn)
    ensures var r := LowerFunctionExpression(fn, name, c);
      && r.text == (if name != "" then name else AnonName(c.counter + 1))
      && c.heads <= r.ctx.heads && |c.heads| < |r.ctx.heads|
      && Defines(r.ctx.heads[|r.ctx.heads| - 1], IndentOf(c), r.text)
      && r.ctx.counter >= (if name != "" then c.counter else c.counter + 1)
  {
    var nm := if name != "" then name else AnonName(c.counter + 1);
    var ps := LowerList(fn.params, if name != "" then c else Bumped(c));
    var params := ["this", "arguments"] + ps.texts;
    FunctionExpressionHoistsAt(fn, name, c, nm, ps, params,
      LowerFunctionBody(FunctionHead(IndentOf(c), fn.isAsync, nm, params), fn.body, ConciseBody(fn), ps.ctx));
  }

  /** FunctionExpressionHoists, given the name, the parameters and the body's lowering. */
  lemma FunctionExpressionHoistsAt(fn: Node, name: string, c: Ctx, nm: string, ps: LoweredSeq, params: seq<string>, f: Lowered)
    requires IsFunctionLiteral(fn)
    requires nm == if name != "" then name else AnonName(c.counter + 1)
    requires ps == LowerList(fn.params, if name != "" then c else Bumped(c))
    requires params == ["this", "arguments"] + ps.texts
    requires f == LowerFunctionBody(FunctionHead(IndentOf(c), fn.isAsync, nm, params), fn.body, ConciseBody(fn), ps.ctx)
    ensures var r := LowerFunctionExpression(fn, name, c);
      && r.text == nm
      && c.heads <= r.ctx.heads && |c.heads| < |r.ctx.heads|
      && Defines(r.ctx.heads[|r.ctx.heads| - 1], IndentOf(c), r.text)
      && r.ctx.counter >= (if name != "" then c.counter else c.counter + 1)
  {
    BodyDefinesAt(IndentOf(c), fn.isAsync, nm, params, fn.body, ConciseBody(fn), ps.ctx, f);
    LastHoistedDefines(f.ctx, f.text, IndentOf(c), nm);
    FunctionExpressionAt(fn, name, c, ps, f);
    assert c.heads <= ps.ctx.heads == f.ctx.heads;
  }

  lemma LastHoistedDefines(c: Ctx, fragment: string, indent: string, name: string)
    requires Defines(fragment, indent, name)
    ensures var h := Hoisted(c, fragment).heads;
      |h| > 0 && Defines(h[|h| - 1], indent, name)
  {
    var h := Hoisted(c, fragment).heads;
    assert h[|h| - 1] == fragment;
  }



  /** With plain identifiers as parameters, exactly one fragment is buffered. */
  lemma FunctionExpressionHoistsOne(fn: Node, name: string, c: Ctx)
    requires IsFunctionLiteral(fn)
    requires forall i :: 0 <= i < |fn.params| ==> fn.params[i].Identifier?
    ensures var r := LowerFunctionExpression(fn, name, c);
      |r.ctx.heads| == |c.heads| + 1 && r.ctx.heads[..|c.heads|] == c.heads
  {
    var c1 := if name != "" then c else Bumped(c);
    IdentifierList(fn.params, c1);
  }

  /** visit_FunctionDeclaration leaves the active buffer as it found it: what the body
      buffers is spliced into the declaration's own text. */
  lemma FunctionDeclarationScoped(n: Node, c: Ctx)
    requires n.FunctionDeclaration? && n.id.Identifier?
    requires forall i :: 0 <= i < |n.params| ==> n.params[i].Identifier?
    ensures var r := LowerFunctionDeclaration(n, c);
      && r.ctx.heads == c.heads
      && r.ctx.indentLevel == c.indentLevel
      && Defines(r.text, IndentOf(c), IdentifierName(n.id.name))
  {
    LowerIdentifier(n.id.name, c);
    IdentifierList(n.params, c);
    var ps := LowerList(n.params, c);
    BodyDefines(IndentOf(c), n.isAsync, IdentifierName(n.id.name), ps.texts, n.body, false, c);
  }

  // ----- Calls -----

  /** A function-literal callee or argument is named `_anonymous_func_<n>` with `n` one
      above the counter, and the counter moves past `n`. */
  lemma CallPartFresh(x: Node, c: Ctx)
    requires IsFunctionLiteral(x)
    ensures LowerCallPart(x, c).text == AnonName(c.counter + 1)
    ensures LowerCallPart(x, c).ctx.counter >= c.counter + 1
  {
  }

  /** Every function literal among the arguments is named with a number handed out during
      the arguments' lowering. */
  lemma {:induction false} ArgNamesFresh(xs: seq<Node>, c: Ctx)
    ensures forall i :: 0 <= i < |xs| && IsFunctionLiteral(xs[i]) ==>
      exists m :: c.counter < m <= LowerArgs(xs, c).ctx.counter && LowerArgs(xs, c).texts[i] == AnonName(m)
    decreases xs
  {
    if xs != [] {
      var x := LowerCallPart(xs[0], c);
      var rest := LowerArgs(xs[1..], x.ctx);
      var r := LowerArgs(xs, c);
      assert r.texts == [x.text] + rest.texts && r.ctx == rest.ctx;
      ArgNamesFresh(xs[1..], x.ctx);
      forall i | 0 <= i < |xs| && IsFunctionLiteral(xs[i])
        ensures exists m :: c.counter < m <= r.ctx.counter && r.texts[i] == AnonName(m)
      {
        if i == 0 {
          CallPartFresh(xs[0], c);
          assert c.counter < c.counter + 1 <= r.ctx.counter && r.texts[0] == AnonName(c.counter + 1);
        } else {
          assert xs[1..][i - 1] == xs[i];
          var m :| x.ctx.counter < m <= rest.ctx.counter && rest.texts[i - 1] == AnonName(m);
          assert r.texts[i] == rest.texts[i - 1];
          assert c.counter < m <= r.ctx.counter && r.texts[i] == AnonName(m);
        }
      }
    }
  }

  /** The first argument's name, when it is a function literal, differs from the name of
      every later function-literal argument. */
  lemma FirstArgNameUnique(xs: seq<Node>, c: Ctx, j: int)
    requires 0 < j < |xs| && IsFunctionLiteral(xs[0]) && IsFunctionLiteral(xs[j])
    ensures LowerArgs(xs, c).texts[0] != LowerArgs(xs, c).texts[j]
  {
    var x := LowerCallPart(xs[0], c);
    var rest := LowerArgs(xs[1..], x.ctx);
    assert LowerArgs(xs, c).texts == [x.text] + rest.texts;
    assert xs[1..][j - 1] == xs[j];
    ArgNamesFresh(xs[1..], x.ctx);
    CallPartFresh(xs[0], c);
    var m :| x.ctx.counter < m <= rest.ctx.counter && rest.texts[j - 1] == AnonName(m);
    if x.text == rest.texts[j - 1] {
      AnonNameInjective(c.counter + 1, m);
    }
  }

  /** Two function-literal arguments of one call never get the same name. */
  lemma {:induction false} ArgNamesDistinct(xs: seq<Node>, c: Ctx)
    ensures forall i, j :: 0 <= i < j < |xs| && IsFunctionLiteral(xs[i]) && IsFunctionLiteral(xs[j]) ==>
      LowerArgs(xs, c).texts[i] != LowerArgs(xs, c).texts[j]
    decreases xs
  {
    if xs != [] {
      var x := LowerCallPart(xs[0], c);
      var rest := LowerArgs(xs[1..], x.ctx);
      var r := LowerArgs(xs, c);
      assert r.texts == [x.text] + rest.texts;
      ArgNamesDistinct(xs[1..], x.ctx);
      forall i, j | 0 <= i < j < |xs| && IsFunctionLiteral(xs[i]) && IsFunctionLiteral(xs[j])
        ensures r.texts[i] != r.texts[j]
      {
        if i == 0 {
          FirstArgNameUnique(xs, c, j);
        } else {
          assert xs[1..][i - 1] == xs[i] && xs[1..][j - 1] == xs[j];
          assert rest.texts[i - 1] != rest.texts[j - 1];
        }
      }
    }
  }

  /** In visit_CallExpression a function-literal callee and function-literal arguments
      are all given different names. */
  lemma CallNamesDistinct(n: Node, c: Ctx)
    requires n.CallExpression? || n.NewExpression?
    ensures var callee := LowerCallPart(n.callee, c);
      var args := LowerArgs(n.arguments, callee.ctx);
      && (forall i :: 0 <= i < |n.arguments| && IsFunctionLiteral(n.callee) && IsFunctionLiteral(n.arguments[i]) ==>
            args.texts[i] != callee.text)
      && (forall i, j :: 0 <= i < j < |n.arguments| && IsFunctionLiteral(n.arguments[i]) && IsFunctionLiteral(n.arguments[j]) ==>
            args.texts[i] != args.texts[j])
  {
    var callee := LowerCallPart(n.callee, c);
    var args := LowerArgs(n.arguments, callee.ctx);
    ArgNamesDistinct(n.arguments, callee.ctx);
    ArgNamesFresh(n.arguments, callee.ctx);
    forall i | 0 <= i < |n.arguments| && IsFunctionLiteral(n.callee) && IsFunctionLiteral(n.arguments[i])
      ensures args.texts[i] != callee.text
    {
      CallPartFresh(n.callee, c);
      var m :| callee.ctx.counter < m <= args.ctx.counter && args.texts[i] == AnonName(m);
      if args.texts[i] == callee.text {
        AnonNameInjective(m, c.counter + 1);
      }
    }
  }

  /** A function-literal callee or argument is replaced by the name of a fragment just
      appended to the active buffer, which defines it at the current indentation. */
  lemma CallPartHoists(x: Node, c: Ctx)
    requires IsFunctionLiteral(x)
    ensures var r := LowerCallPart(x, c);
      && r.text == AnonName(c.counter + 1)
      && c.heads <= r.ctx.heads && |c.heads| < |r.ctx.heads|
      && Defines(r.ctx.heads[|r.ctx.heads| - 1], IndentOf(c), r.text)
  {
    FunctionExpressionHoists(x, AnonName(c.counter + 1), Bumped(c));
  }

  /** Argument `i`'s text is the name of a function that a fragment buffered while the
      arguments `xs` were lowered from `c` defines at `c`'s indentation. */
  predicate ArgDefined(xs: seq<Node>, c: Ctx, i: int)
    requires 0 <= i < |xs|
  {
    var r := LowerArgs(xs, c);
    exists j :: |c.heads| <= j < |r.ctx.heads| && Defines(r.ctx.heads[j], IndentOf(c), r.texts[i])
  }

  lemma FirstArgHoisted(xs: seq<Node>, c: Ctx)
    requires xs != [] && IsFunctionLiteral(xs[0])
    ensures ArgDefined(xs, c, 0)
  {
    var x := LowerCallPart(xs[0], c);
    var rest := LowerArgs(xs[1..], x.ctx);
    var r := LowerArgs(xs, c);
    assert r.texts[0] == x.text && r.ctx == rest.ctx;
    CallPartHoists(xs[0], c);
    var j := |x.ctx.heads| - 1;
    assert r.ctx.heads[j] == x.ctx.heads[j];
  }

  lemma LaterArgHoisted(xs: seq<Node>, c: Ctx, i: int)
    requires 0 < i < |xs|
    requires ArgDefined(xs[1..], LowerCallPart(xs[0], c).ctx, i - 1)
    ensures ArgDefined(xs, c, i)
  {
    var x := LowerCallPart(xs[0], c);
    var rest := LowerArgs(xs[1..], x.ctx);
    var r := LowerArgs(xs, c);
    assert r.texts == [x.text] + rest.texts && r.ctx == rest.ctx;
    assert IndentOf(x.ctx) == IndentOf(c);
    var j :| |x.ctx.heads| <= j < |rest.ctx.heads| && Defines(rest.ctx.heads[j], IndentOf(x.ctx), rest.texts[i - 1]);
    assert r.texts[i] == rest.texts[i - 1];
  }

  /** Every function-literal argument is replaced by the name of a function that a
      fragment buffered while the arguments were lowered defines. */
  lemma {:induction false} ArgNamesHoisted(xs: seq<Node>, c: Ctx)
    ensures forall i :: 0 <= i < |xs| && IsFunctionLiteral(xs[i]) ==> ArgDefined(xs, c, i)
    decreases xs
  {
    if xs != [] {
      var x := LowerCallPart(xs[0], c);
      ArgNamesHoisted(xs[1..], x.ctx);
      forall i | 0 <= i < |xs| && IsFunctionLiteral(xs[i])
        ensures ArgDefined(xs, c, i)
      {
        if i == 0 {
          FirstArgHoisted(xs, c);
        } else {
          assert xs[1..][i - 1] == xs[i];
          LaterArgHoisted(xs, c, i);
        }
      }
    }
  }

  /** visit_CallExpression: the call is the callee applied to the arguments, and every
      function literal among them stands for a name that a fragment buffered during the
      call defines; the callee's name is `_anonymous_func_` with the next counter value. */
  lemma CallHoists(n: Node, c: Ctx)
    requires n.CallExpression? || n.NewExpression?
    ensures var r := Lower(n, c);
      var callee := LowerCallPart(n.callee, c);
      var args := LowerArgs(n.arguments, callee.ctx);
      && r.text == callee.text + "(" + Join(", ", args.texts) + ")"
      && |args.texts| == |n.arguments|
      && (IsFunctionLiteral(n.callee) ==>
            && callee.text == AnonName(c.counter + 1)
            && exists j :: |c.heads| <= j < |r.ctx.heads| && Defines(r.ctx.heads[j], IndentOf(c), callee.text))
      && (forall i :: 0 <= i < |n.arguments| && IsFunctionLiteral(n.arguments[i]) ==>
            exists j :: |c.heads| <= j < |r.ctx.heads| && Defines(r.ctx.heads[j], IndentOf(c), args.texts[i]))
  {
    CallRule(n, c);
    var callee := LowerCallPart(n.callee, c);
    var args := LowerArgs(n.arguments, callee.ctx);
    assert Lower(n, c).ctx == args.ctx;
    if IsFunctionLiteral(n.callee) {
      CallPartHoists(n.callee, c);
      var j := |callee.ctx.heads| - 1;
      assert args.ctx.heads[j] == callee.ctx.heads[j];
    }
    ArgNamesHoisted(n.arguments, callee.ctx);
    assert IndentOf(callee.ctx) == IndentOf(c);
  }

  // ----- Object destructuring -----

  /** An entry whose key the visit prints without touching the state: an identifier or
      literal key, or a rest entry, which has no key and is printed `None`. */
  predicate PlainKey(p: Prop)
  {
    p.RestProperty? || p.key.Identifier? || p.key.Literal?
  }

  /** The text the visit gives for a plain entry's key. */
  function KeyText(p: Prop): string
    requires PlainKey(p)
  {
    match p
    case RestProperty(_) => "None"
    case Property(key, _) => if key.Identifier? then IdentifierName(key.name) else LiteralText(key.value)
  }

  lemma PlainKeyLowers(p: Prop, c: Ctx)
    requires PlainKey(p)
    ensures PropKey(p, c) == Lowered(KeyText(p), c)
  {
    if p.Property? {
      if p.key.Identifier? {
        LowerIdentifier(p.key.name, c);
      } else {
        ExpressionRule(p.key, c);
      }
    }
  }

  /** Every entry of the pattern has a plain key. */
  predicate SimpleKeys(props: seq<Prop>)
  {
    forall i :: 0 <= i < |props| ==> PlainKey(props[i])
  }

  /** The `k = temp.k` lines, one per entry and in the pattern's order. */
  function CopyLines(props: seq<Prop>, temp: string): (r: seq<string>)
    requires SimpleKeys(props)
    ensures |r| == |props|
  {
    if props == [] then []
    else
      var k := KeyText(props[0]);
      [k + " = " + temp + "." + k] + CopyLines(props[1..], temp)
  }

  lemma SimpleKeysTail(props: seq<Prop>)
    requires props != [] && SimpleKeys(props)
    ensures SimpleKeys(props[1..])
  {
    forall i | 0 <= i < |props[1..]| ensures PlainKey(props[1..][i]) {
      assert props[1..][i] == props[i + 1];
    }
  }

  /** Line `i` copies entry `i`'s key out of the temporary. */
  lemma CopyLinesElements(props: seq<Prop>, temp: string)
    requires SimpleKeys(props)
    ensures forall i :: 0 <= i < |props| ==>
      CopyLines(props, temp)[i] == KeyText(props[i]) + " = " + temp + "." + KeyText(props[i])
  {
    forall i | 0 <= i < |props|
      ensures CopyLines(props, temp)[i] == KeyText(props[i]) + " = " + temp + "." + KeyText(props[i])
    {
      CopyLineAt(props, temp, i);
    }
  }

  lemma {:induction false} CopyLineAt(props: seq<Prop>, temp: string, i: nat)
    requires SimpleKeys(props) && i < |props|
    ensures CopyLines(props, temp)[i] == KeyText(props[i]) + " = " + temp + "." + KeyText(props[i])
    decreases i
  {
    if i > 0 {
      SimpleKeysTail(props);
      CopyLineAt(props[1..], temp, i - 1);
      assert props[1..][i - 1] == props[i];
    }
  }

  /** A rest entry in a destructuring pattern copies the attribute `None`. */
  lemma RestCopyLine(a: Node, temp: string)
    ensures CopyLines([RestProperty(a)], temp) == ["None = " + temp + ".None"]
  {
    assert [RestProperty(a)][1..] == [];
    assert "None" + " = " == "None = " && "." + "None" == ".None";
    assert "None" + " = " + temp + "." + "None" == "None = " + temp + ("." + "None");
  }

  lemma {:induction false} CopiesOfSimpleKeys(props: seq<Prop>, temp: string, c: Ctx)
    requires SimpleKeys(props)
    ensures LowerCopies(props, temp, c) == c.(heads := c.heads + CopyLines(props, temp))
    decreases props
  {
    if props != [] {
      var name := KeyText(props[0]);
      PlainKeyLowers(props[0], c);
      var line := name + " = " + temp + "." + name;
      SimpleKeysTail(props);
      assert LowerCopies(props, temp, c) == LowerCopies(props[1..], temp, Hoisted(c, line));
      CopiesOfSimpleKeys(props[1..], temp, Hoisted(c, line));
      assert CopyLines(props, temp) == [line] + CopyLines(props[1..], temp);
      assert c.heads + [line] + CopyLines(props[1..], temp) == c.heads + CopyLines(props, temp);
    }
  }

  /** `str(['del _temp_<n>'])`. */
  lemma DelTail(num: int)
    ensures ListRepr(["del " + TempName(num)]) == DelTails(TempName(num))
  {
    var s := "del " + TempName(num);
    DelTextPlain(num);
    ReprOfPlain(s);
    assert ReprAll([s]) == [PyRepr(s)];
  }

  /** `del _temp_<n>` needs no escaping. */
  lemma DelTextPlain(num: int)
    ensures var s := "del " + TempName(num);
      forall k :: 0 <= k < |s| ==> PlainChar(s[k])
  {
    var s := "del " + TempName(num);
    var digits := IntToString(num);
    assert s == "del _temp_" + digits;
    forall k | 0 <= k < |s| ensures PlainChar(s[k]) {
      if k >= 10 {
        assert s[k] == digits[k - 10];
      }
    }
  }

  /** An object pattern declarator buffers `_temp_<n> = value` and then one `k = _temp_<n>.k`
      per entry in order, with `n` one above the counter after the value; its own text is
      only the printed one-element list of tails. */
  lemma DestructuringDeclarator(d: Declarator, dflt: bool, c: Ctx)
    requires d.id.ObjectPattern? && SimpleKeys(d.id.properties)
    ensures var v := LowerInit(d, c);
      var temp := TempName(v.ctx.counter + 1);
      var r := LowerDeclarator(d, dflt, c);
      && r.ctx.heads == v.ctx.heads + [temp + " = " + v.text] + CopyLines(d.id.properties, temp)
      && r.ctx.counter == v.ctx.counter + 1
      && r.text == "\n" + IndentOf(c) + "['del " + temp + "']"
      && r.text == "\n" + IndentOf(c) + ListRepr(["del " + temp])
  {
    var v := LowerInit(d, c);
    var temp := TempName(v.ctx.counter + 1);
    DestructuringAt(d, dflt, c, v, temp, LowerCopies(d.id.properties, temp, Hoisted(Bumped(v.ctx), temp + " = " + v.text)));
  }

  /** DestructuringDeclarator, given the value and the copies' lowering. */
  lemma DestructuringAt(d: Declarator, dflt: bool, c: Ctx, v: Lowered, temp: string, cp: Ctx)
    requires d.id.ObjectPattern? && SimpleKeys(d.id.properties)
    requires v == LowerInit(d, c)
    requires temp == TempName(v.ctx.counter + 1)
    requires cp == LowerCopies(d.id.properties, temp, Hoisted(Bumped(v.ctx), temp + " = " + v.text))
    ensures var r := LowerDeclarator(d, dflt, c);
      && r.ctx.heads == v.ctx.heads + [temp + " = " + v.text] + CopyLines(d.id.properties, temp)
      && r.ctx.counter == v.ctx.counter + 1
      && r.text == "\n" + IndentOf(c) + "['del " + temp + "']"
      && r.text == "\n" + IndentOf(c) + ListRepr(["del " + temp])
  {
    PatternDeclaratorAt(d, dflt, c, v, temp, cp);
    CopiesOfSimpleKeys(d.id.properties, temp, Hoisted(Bumped(v.ctx), temp + " = " + v.text));
    DelTail(v.ctx.counter + 1);
  }


  lemma SimpleDeclarator(x: string, v: Lit, c: Ctx)
    requires x != ""
    ensures var d := VariableDeclarator(Identifier(x), Some(Literal(v)));
      && LowerDeclarator(d, true, c) == Lowered(IdentifierName(x) + " = " + LiteralText(v), c)
      && LowerDeclarators([d], true, c) == LoweredSeq([IdentifierName(x) + " = " + LiteralText(v)], c)
  {
    var d := VariableDeclarator(Identifier(x), Some(Literal(v)));
    LowerIdentifier(x, c);
    ExpressionRule(Literal(v), c);
    assert LowerInit(d, c) == Lowered(LiteralText(v), c);
    assert LowerDeclarators([d][1..], true, c) == LoweredSeq([], c);
  }

  /** `let x = v` for a value that is not a function literal: `x = <v>` (or only `x` in a
      `for … in` head), after whatever lowering `v` buffered. */
  lemma GeneralDeclarator(x: string, v: Node, c: Ctx)
    requires x != "" && !IsFunctionLiteral(v)
    ensures var val := Lower(v, c);
      var d := VariableDeclarator(Identifier(x), Some(v));
      && LowerDeclarator(d, true, c) == Lowered(IdentifierName(x) + " = " + val.text, val.ctx)
      && LowerDeclarator(d, false, c) == Lowered(IdentifierName(x), val.ctx)
  {
    LowerIdentifier(x, Lower(v, c).ctx);
  }

  /** The parameter names of a function literal whose parameters are identifiers. */
  function ParamNames(ps: seq<Node>): (r: seq<string>)
    requires forall i :: 0 <= i < |ps| ==> ps[i].Identifier?
    ensures |r| == |ps|
    ensures forall i :: 0 <= i < |ps| ==> r[i] == IdentifierName(ps[i].name)
  {
    seq(|ps|, i requires 0 <= i < |ps| => IdentifierName(ps[i].name))
  }

  /** A function's lowered text starts with its head. */
  lemma BodyStartsWithHead(head: string, body: Node, concise: bool, c: Ctx)
    ensures head <= LowerFunctionBody(head, body, concise, c).text
  {
    var inner := WithHeads(Indented(c), []);
    var pre := if concise then IndentOf(inner) else "";
    var b := Lower(body, inner);
    var out := Dedented(WithHeads(b.ctx, c.heads));
    assert LowerFunctionBody(head, body, concise, c).text == head + (Spliced(b.ctx.heads, IndentOf(out)) + pre + b.text);
  }

  /** `let x = <function literal>`: the function is buffered as exactly one fragment,
      which starts with `def x(this, arguments, <params>):` at the current indentation,
      and the declarator itself is `x = x`. */
  lemma FunctionInitDeclarator(x: string, fn: Node, c: Ctx)
    requires x != "" && IsFunctionLiteral(fn)
    requires forall i :: 0 <= i < |fn.params| ==> fn.params[i].Identifier?
    ensures var name := IdentifierName(x);
      var r := LowerDeclarator(VariableDeclarator(Identifier(x), Some(fn)), true, c);
      && r.text == name + " = " + name
      && |r.ctx.heads| == |c.heads| + 1 && r.ctx.heads[..|c.heads|] == c.heads
      && FunctionHead(IndentOf(c), fn.isAsync, name, ["this", "arguments"] + ParamNames(fn.params)) <= r.ctx.heads[|c.heads|]
  {
    var name := IdentifierName(x);
    IdentifierList(fn.params, c);
    var ps := LowerList(fn.params, c);
    assert ps.texts == ParamNames(fn.params);
    var head := FunctionHead(IndentOf(c), fn.isAsync, name, ["this", "arguments"] + ps.texts);
    FunctionInitAt(x, fn, c, name, ps, head, LowerFunctionBody(head, fn.body, ConciseBody(fn), ps.ctx));
  }

  /** FunctionInitDeclarator, given the name, the parameters, the head and the body's lowering. */
  lemma FunctionInitAt(x: string, fn: Node, c: Ctx, name: string, ps: LoweredSeq, head: string, body: Lowered)
    requires x != "" && IsFunctionLiteral(fn)
    requires name == IdentifierName(x)
    requires ps == LowerList(fn.params, c) && ps.ctx == c
    requires head == FunctionHead(IndentOf(c), fn.isAsync, name, ["this", "arguments"] + ps.texts)
    requires body == LowerFunctionBody(head, fn.body, ConciseBody(fn), ps.ctx)
    ensures var r := LowerDeclarator(VariableDeclarator(Identifier(x), Some(fn)), true, c);
      && r.text == name + " = " + name
      && |r.ctx.heads| == |c.heads| + 1 && r.ctx.heads[..|c.heads|] == c.heads
      && head <= r.ctx.heads[|c.heads|]
  {
    var d := VariableDeclarator(Identifier(x), Some(fn));
    var fctx := Hoisted(body.ctx, body.text);
    LowerIdentifier(x, c);
    FunctionExpressionAt(fn, name, c, ps, body);
    FunctionValueAt(d, c, Lowered(name, c), Lowered(name, fctx));
    LowerIdentifier(x, fctx);
    PlainDeclaratorAt(d, true, c, Lowered(name, fctx), Lowered(name, fctx));
    BodyStartsWithHead(head, fn.body, ConciseBody(fn), ps.ctx);
    assert fctx.heads == c.heads + [body.text];
  }


  lemma ConcatOfOne(pre: string, line: string)
    ensures Concat(Prefixed(pre, [line])) == pre + line
  {
    assert Prefixed(pre, [line]) == [pre + line];
    assert [pre + line][1..] == [];
  }

  /** A plain `let x = <literal>` lowers to `x = <literal>` on its own line and buffers nothing. */
  lemma SimpleDeclaration(x: string, v: Lit, c: Ctx)
    requires x != ""
    ensures var line := IdentifierName(x) + " = " + LiteralText(v);
      Lower(VariableDeclaration([VariableDeclarator(Identifier(x), Some(Literal(v)))]), c)
      == Lowered("\n" + ("\n" + IndentOf(c) + line), c)
  {
    var n := VariableDeclaration([VariableDeclarator(Identifier(x), Some(Literal(v)))]);
    var line := IdentifierName(x) + " = " + LiteralText(v);
    assert Lower(n, c) == LowerDeclaration(n, true, c) by { StatementRule(n, c); }
    assert LowerDeclaration(n, true, c) == Lowered("\n" + Concat(Prefixed("\n" + IndentOf(c), [line])), c) by {
      SimpleDeclarator(x, v, c);
    }
    ConcatOfOne("\n" + IndentOf(c), line);
  }

  // ----- Statements kept as written -----

  /** A `do ... while` loop lowers exactly like a `while` loop. */
  lemma DoWhileIsWhile(body: Node, test: Node, c: Ctx)
    ensures Lower(DoWhileStatement(body, test), c) == Lower(WhileStatement(test, body), c)
  {
    StatementRule(DoWhileStatement(body, test), c);
    StatementRule(WhileStatement(test, body), c);
  }

  /** An `else if` alternate contributes nothing, as if there were no alternate. */
  lemma ElseIfDropped(test: Node, cons: Node, alt: Node, c: Ctx)
    requires alt.IfStatement?
    ensures Lower(IfStatement(test, cons, Some(alt)), c) == Lower(IfStatement(test, cons, None), c)
  {
    var n1 := IfStatement(test, cons, Some(alt));
    var n0 := IfStatement(test, cons, None);
    StatementRule(n1, c);
    StatementRule(n0, c);
    var t := Lower(test, c);
    var b := Lower(cons, WithHeads(Indented(t.ctx), []));
    var c2 := Dedented(WithHeads(b.ctx, t.ctx.heads));
    assert LowerElse(Some(alt), c2) == LowerElse(None, c2);
  }

  /** The finalizer is put on a new line after the try block, with no `finally:` keyword. */
  lemma TryFinallyHasNoKeyword(block: Node, fin: Node, c: Ctx)
    ensures var b := Lower(block, Indented(c));
      var f := Lower(fin, Dedented(b.ctx));
      Lower(TryStatement(block, None, Some(fin)), c) == Lowered("try:\n" + b.text + "\n" + IndentOf(c) + f.text, f.ctx)
  {
    TryRule(TryStatement(block, None, Some(fin)), c);
  }

  lemma TryRule(n: Node, c: Ctx)
    requires n.TryStatement?
    ensures Lower(n, c) == LowerTry(n, c)
  {
    StatementRule(n, c);
  }

  /** A case without a test is the `default:` arm. */
  lemma SwitchDefaultArm(body: seq<Node>, c: Ctx)
    ensures var r := LowerCase(SwitchCase(None, body), c);
      |r.text| >= 9 && r.text[..9] == "default:\n"
  {
  }

  /** `return x++` evaluates the update and then returns the operand, visiting it twice. */
  lemma ReturnOfUpdate(x: string, c: Ctx)
    ensures Lower(ReturnStatement(Some(UpdateExpression("++", Identifier(x), false))), c).text
            == IdentifierName(x) + "+=1" + "\n" + IndentOf(c) + "return" + " " + IdentifierName(x)
  {
    var u := UpdateExpression("++", Identifier(x), false);
    StatementRule(ReturnStatement(Some(u)), c);
    LowerIdentifier(x, c);
    IncrementText(x, c);
    assert LowerBase("return", u, c).text == Lower(u, c).text + "\n" + IndentOf(c) + "return" + " " + IdentifierName(x);
  }

  // ----- Templates and the script -----

  /** A template literal is printed between `f"""` and `"""`. */
  lemma TemplateDelimiters(quasis: seq<string>, exprs: seq<Node>, c: Ctx)
    ensures var t := Lower(TemplateLiteral(quasis, exprs), c).text;
      |t| >= 7 && t[..4] == "f\"\"\"" && t[|t| - 3..] == "\"\"\""
  {
  }

  /** Past the last expression, each remaining cooked text is copied as it is. */
  lemma {:induction false} QuasisTail(quasis: seq<string>, exprs: seq<Node>, i: nat, c: Ctx)
    requires |exprs| <= i <= |quasis|
    ensures LowerQuasis(quasis, exprs, i, c) == Lowered(Concat(quasis[i..]), c)
    decreases |quasis| - i
  {
    if i < |quasis| {
      QuasisTail(quasis, exprs, i + 1, c);
      assert quasis[i..][1..] == quasis[i + 1..];
    }
  }

  /** Without expressions a template is its cooked texts in order. */
  lemma TemplateWithoutExpressions(quasis: seq<string>, c: Ctx)
    ensures Lower(TemplateLiteral(quasis, []), c) == Lowered("f\"\"\"" + Concat(quasis) + "\"\"\"", c)
  {
    QuasisTail(quasis, [], 0, c);
    assert quasis[0..] == quasis;
  }

  /** Each cooked text that has an expression, an identifier, followed by it in braces. */
  function BracedParts(quasis: seq<string>, exprs: seq<Node>): (r: seq<string>)
    requires |exprs| <= |quasis|
    requires forall k :: 0 <= k < |exprs| ==> exprs[k].Identifier?
    ensures |r| == |exprs|
    ensures forall k :: 0 <= k < |exprs| ==> r[k] == quasis[k] + "{" + IdentifierName(exprs[k].name) + "}"
  {
    seq(|exprs|, k requires 0 <= k < |exprs| => quasis[k] + "{" + IdentifierName(exprs[k].name) + "}")
  }

  /** One step of the template loop at a position that has an identifier expression. */
  lemma QuasisStep(quasis: seq<string>, exprs: seq<Node>, i: nat, c: Ctx)
    requires i < |exprs| <= |quasis|
    requires forall k :: 0 <= k < |exprs| ==> exprs[k].Identifier?
    ensures var rest := LowerQuasis(quasis, exprs, i + 1, c);
      LowerQuasis(quasis, exprs, i, c) == Lowered(BracedParts(quasis, exprs)[i] + rest.text, rest.ctx)
  {
    LowerIdentifier(exprs[i].name, c);
  }

  lemma ConcatAt(xs: seq<string>, i: nat)
    requires i < |xs|
    ensures Concat(xs[i..]) == xs[i] + Concat(xs[i + 1..])
  {
    assert xs[i..][1..] == xs[i + 1..];
  }

  /** The inductive step of QuasisWithExpressions, with the hypothesis as a precondition. */
  lemma QuasisCons(quasis: seq<string>, exprs: seq<Node>, i: nat, c: Ctx)
    requires i < |exprs| <= |quasis|
    requires forall k :: 0 <= k < |exprs| ==> exprs[k].Identifier?
    requires LowerQuasis(quasis, exprs, i + 1, c)
             == Lowered(Concat(BracedParts(quasis, exprs)[i + 1..]) + Concat(quasis[|exprs|..]), c)
    ensures LowerQuasis(quasis, exprs, i, c)
            == Lowered(Concat(BracedParts(quasis, exprs)[i..]) + Concat(quasis[|exprs|..]), c)
  {
    var parts := BracedParts(quasis, exprs);
    var rest := LowerQuasis(quasis, exprs, i + 1, c);
    QuasisStep(quasis, exprs, i, c);
    ConcatAt(parts, i);
    AppendAssoc(parts[i], Concat(parts[i + 1..]), Concat(quasis[|exprs|..]));
  }

  lemma AppendAssoc(x: string, y: string, z: string)
    ensures x + (y + z) == (x + y) + z
  {
  }

  lemma {:induction false} QuasisWithExpressions(quasis: seq<string>, exprs: seq<Node>, i: nat, c: Ctx)
    requires i <= |exprs| <= |quasis|
    requires forall k :: 0 <= k < |exprs| ==> exprs[k].Identifier?
    ensures LowerQuasis(quasis, exprs, i, c)
            == Lowered(Concat(BracedParts(quasis, exprs)[i..]) + Concat(quasis[|exprs|..]), c)
    decreases |exprs| - i
  {
    if i == |exprs| {
      QuasisTail(quasis, exprs, i, c);
      assert BracedParts(quasis, exprs)[i..] == [];
    } else {
      QuasisWithExpressions(quasis, exprs, i + 1, c);
      QuasisCons(quasis, exprs, i, c);
    }
  }

  /** A template whose expressions are identifiers: each cooked text that has an
      expression is followed by its name in braces, and the texts after the last
      expression (the parser always leaves exactly one) are copied as they are. */
  lemma TemplateWithExpressions(quasis: seq<string>, exprs: seq<Node>, c: Ctx)
    requires |exprs| <= |quasis|
    requires forall k :: 0 <= k < |exprs| ==> exprs[k].Identifier?
    ensures Lower(TemplateLiteral(quasis, exprs), c)
            == Lowered("f\"\"\"" + (Concat(BracedParts(quasis, exprs)) + Concat(quasis[|exprs|..])) + "\"\"\"", c)
  {
    var body := LowerQuasis(quasis, exprs, 0, c);
    assert Lower(TemplateLiteral(quasis, exprs), c) == Lowered("f\"\"\"" + body.text + "\"\"\"", body.ctx) by {
      ExpressionRule(TemplateLiteral(quasis, exprs), c);
    }
    QuasisWithExpressions(quasis, exprs, 0, c);
    assert BracedParts(quasis, exprs)[0..] == BracedParts(quasis, exprs);
  }

  /** visit_Script returns the buffer, then one text per top-level statement in order;
      for a fresh visitor the buffer starts with the runtime imports. */
  lemma ScriptLayout(body: seq<Node>)
    ensures var r := LowerScript(body, Initial);
      var s := LowerList(body, Initial);
      && |r.texts| == |r.ctx.heads| + |body|
      && r.texts[0] == Preamble
      && r.texts[|r.ctx.heads|..] == s.texts
  {
    var s := LowerList(body, Initial);
    assert Initial.heads <= s.ctx.heads;
    assert LowerScript(body, Initial).texts == s.ctx.heads + s.texts;
  }
}

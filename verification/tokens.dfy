/** The rewrite tables of the visitor: identifier renaming, operator tokens, literal
    text and the shapes of synthesized names. */
module Tokens {
  import opened Strings
  import opened Ast

  /** visit_Identifier: `global` shadows the target's module lookup and becomes
      `globals`; `Error` becomes the target's base exception. */
  function IdentifierName(name: string): string
  {
    var renamed := if name == "global" then "globals" else name;
    if renamed == "Error" then "Exception" else renamed
  }

  /** The operator rewrite of visit_BinaryExpression. */
  function BinaryOp(op: string): string
  {
    if op == "&&" then "and"
    else if op == "||" then "or"
    else if op == "===" then "=="
    else if op == "!==" then "!="
    else op
  }

  /** The operator rewrite of visit_UpdateExpression (prefix and postfix alike). */
  function UpdateOp(op: string): string
  {
    var first := if op == "++" then "+=1" else op;
    if first == "--" then "-=1" else first
  }

  /** visit_UnaryExpression once its operand `a` is lowered. */
  function UnaryText(op: string, a: string, prefix: bool): string
  {
    if op == "typeof" then "type(globals().get('" + a + "'))"
    else
      var o := if op == "!" then "not" else if op == "delete" then "del" else if op == "void" then "" else op;
      if prefix then o + " " + a else a + " " + o
  }

  /** visit_Literal: Python's `repr` of the literal's value. */
  function LiteralText(v: Lit): string
  {
    match v
    case StrLit(s) => PyRepr(s)
    case IntLit(i) => IntToString(i)
    case BoolLit(b) => if b then "True" else "False"
    case NullLit => "None"
  }

  /** The name given to a function literal with no caller-supplied name. */
  function AnonName(num: int): string
  {
    "_anonymous_func_" + IntToString(num)
  }

  /** The name given to a function-valued property of an object literal. */
  function PropertyFunctionName(key: string, num: int): string
  {
    "_anonymous_func_" + key + IntToString(num)
  }

  /** The temporary that holds the value an object pattern destructures. */
  function TempName(num: int): string
  {
    "_temp_" + IntToString(num)
  }
}

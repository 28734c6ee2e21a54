/**
 * What the code generator's structural part guarantees: the maps'
 * tables and fixed points, the shape of every emitted expression, the
 * identifier walks against a path-based reference, and the exact lines
 * each control statement emits around its bodies.
 */
module CodegenProps {
  import opened Wrappers
  import opened Text
  import opened Ast
  import Typing
  import Semantic
  import opened Codegen

  // ---------------------------------------------------------------------
  // Type map

  /** The six primitive names and their C types. */
  lemma MapTypeBasics()
    ensures MapType("entero") == "int" && MapType("flotante") == "float"
    ensures MapType("booleano") == "bool" && MapType("caracter") == "char"
    ensures MapType("cadena") == "char*" && MapType("vacio") == "void"
  {
  }

  lemma NotArray(t: string)
    requires t in Typing.BasicTypes || t in {"int", "float", "bool", "char", "char*", "void"}
    ensures !EndsWith(t, "[]")
  {
    assert t[|t| - 1] != ']';
  }

  /** `_map_type` changes a name exactly when it is a primitive or an array type. */
  lemma MapTypeChanges(t: string)
    ensures MapType(t) != t <==> (t in Typing.BasicTypes || EndsWith(t, "[]"))
  {
    if EndsWith(t, "[]") {
      var r := MapType(t);
      assert r[|r| - 1] == '*' && t[|t| - 1] == ']';
    } else if t in Typing.BasicTypes {
      NotArray(t);
    }
  }

  /** `X[]` maps to the pointer to `X`'s C type. */
  lemma MapTypeArray(x: string)
    requires !EndsWith(x, "[]")
    ensures MapType(x + "[]") == MapType(x) + "*"
  {
    var t := x + "[]";
    assert t[|t| - 2..] == "[]";
    assert t[..|t| - 2] == x;
  }

  lemma PointerFixed(s: string)
    requires |s| > 0 && s[|s| - 1] == '*'
    ensures MapType(s) == s
  {
    assert !EndsWith(s, "[]");
    assert s !in Typing.BasicTypes;
  }

  /** A C type name is its own image: mapping twice is mapping once. */
  lemma MapTypeIdempotent(t: string)
    ensures MapType(MapType(t)) == MapType(t)
  {
    if EndsWith(t, "[]") {
      PointerFixed(MapType(t));
    } else if t in Typing.BasicTypes {
      CNameFixed(BaseType(t));
    } else {
      assert MapType(t) == t;
    }
  }

  lemma CNameFixed(r: string)
    requires r in {"int", "float", "bool", "char", "char*", "void"}
    ensures MapType(r) == r
  {
    NotArray(r);
  }

  // ---------------------------------------------------------------------
  // Operator maps

  /** The comparison map translates its six token names and fixes every other string. */
  lemma MapOperatorTable(op: string)
    ensures op !in OperatorTokens ==> MapOperator(op) == op
    ensures op in OperatorTokens ==> MapOperator(op) in {"==", "!=", "<", ">", "<=", ">="}
    ensures MapOperator("IGUAL") == "==" && MapOperator("DISTINTO") == "!="
    ensures MapOperator("MENOR") == "<" && MapOperator("MAYOR") == ">"
    ensures MapOperator("MENOR_IGUAL") == "<=" && MapOperator("MAYOR_IGUAL") == ">="
  {
  }

  /**
   * The parser puts the operator's text, not its token name, into a
   * comparison node, and every such text is a fixed point of the map; so
   * translating is also idempotent.
   */
  lemma MapOperatorFixesLexemes(op: string)
    ensures op in {"==", "!=", "<", ">", "<=", ">="} ==> MapOperator(op) == op
    ensures MapOperator(MapOperator(op)) == MapOperator(op)
  {
  }

  /** The logical map translates AND, OR and NOT, fixes every other string, and is idempotent. */
  lemma MapLogicalOperatorTable(op: string)
    ensures op !in {"AND", "OR", "NOT"} ==> MapLogicalOperator(op) == op
    ensures MapLogicalOperator("AND") == "&&" && MapLogicalOperator("OR") == "||" && MapLogicalOperator("NOT") == "!"
    ensures MapLogicalOperator(MapLogicalOperator(op)) == MapLogicalOperator(op)
  {
  }

  // ---------------------------------------------------------------------
  // Expressions

  /**
   * Every binary node the parser builds is emitted fully parenthesised,
   * with the operator text (mapped, for comparisons and AND/OR) between
   * its operands' translations.
   */
  lemma BinaryLayout(mode: Semantic.Mode, h: Hooks, l: Node, op: string, r: Node, line: nat, column: nat)
    ensures Expr(mode, h, Arithmetic(l, op, r, line, column)) == "(" + Expr(mode, h, l) + " " + op + " " + Expr(mode, h, r) + ")"
    ensures Expr(mode, h, Termino(l, op, r)) == "(" + Expr(mode, h, l) + " " + op + " " + Expr(mode, h, r) + ")"
    ensures Expr(mode, h, Relational(l, op, r, line, column)) ==
      "(" + Expr(mode, h, l) + " " + MapOperator(op) + " " + Expr(mode, h, r) + ")"
    ensures op != "NOT" ==>
      Expr(mode, h, Logical(l, op, r)) == "(" + Expr(mode, h, l) + " " + MapLogicalOperator(op) + " " + Expr(mode, h, r) + ")"
  {
  }

  /** As written, negation is dropped: `NOT x` is emitted as `x`. */
  lemma NotDroppedAsWritten(h: Hooks, x: Node)
    ensures Expr(Semantic.AsWritten, h, Not(x)) == Expr(Semantic.AsWritten, h, x)
  {
  }

  /** `NOT verdadero` comes out as `true`, where `!(true)` was meant. */
  lemma NotExample(h: Hooks)
    ensures Expr(Semantic.AsWritten, h, Not(Boolean("verdadero", 1, 5))) == "true"
    ensures Expr(Semantic.Intended, h, Not(Boolean("verdadero", 1, 5))) == "!(true)"
  {
    assert Lower("verdadero") == "verdadero";
  }

  /** The intended reading emits `NOT x` as `!(x)`. */
  lemma NotNegated(h: Hooks, x: Node)
    ensures Expr(Semantic.Intended, h, Not(x)) == "!(" + Expr(Semantic.Intended, h, x) + ")"
  {
  }

  /** No one-child `NOT` node anywhere in the tree. */
  predicate NoBareNot(n: Node)
    decreases n
  {
    !(n.kind == "expresion_logica" && n.leaf == Some("NOT") && |n.children| == 1)
    && forall i :: 0 <= i < |n.children| ==> NoBareNot(n.children[i])
  }

  /** The two readings differ only on one-child `NOT` nodes. */
  lemma {:induction false} ReadingsAgreeWithoutNot(h: Hooks, n: Node)
    requires NoBareNot(n)
    ensures Expr(Semantic.AsWritten, h, n) == Expr(Semantic.Intended, h, n)
    decreases n
  {
    if |n.children| >= 1 {
      ReadingsAgreeWithoutNot(h, n.children[0]);
    }
    if |n.children| >= 2 {
      ReadingsAgreeWithoutNot(h, n.children[1]);
    }
  }

  /**
   * A boolean literal is `true` iff its lower-cased text is `verdadero`; a
   * literal factor is `true`/`false` for the two words and its own text
   * otherwise.
   */
  lemma LiteralLayout(mode: Semantic.Mode, h: Hooks, text: string, line: nat, column: nat)
    ensures Expr(mode, h, Boolean(text, line, column)) == (if Lower(text) == "verdadero" then "true" else "false")
    ensures Expr(mode, h, Literal(text, line, column)) ==
      (if Lower(text) == "verdadero" then "true" else if Lower(text) == "falso" then "false" else text)
  {
  }

  /** A node of a kind the translator has no branch for becomes the empty string. */
  lemma UnknownKindEmpty(mode: Semantic.Mode, h: Hooks, n: Node)
    requires n.kind !in ExpressionKinds
    ensures Expr(mode, h, n) == ""
  {
  }

  /**
   * An identifier factor is emitted as its name, and so is a member read:
   * the `acceso_objeto` the parser hangs under the `id` is never visited.
   */
  lemma IdentifierFactors(mode: Semantic.Mode, h: Hooks, name: Name, access: Node, index: Node)
    ensures Expr(mode, h, IdFactor(name)) == name.text
    ensures Expr(mode, h, MemberFactor(name, access)) == name.text
    ensures Expr(mode, h, IndexFactor(name, index)) == name.text + "[" + Expr(mode, h, index) + "]"
  {
  }

  // ---------------------------------------------------------------------
  // For headers

  /** The initialisation the parser builds comes out as `T v = e` or `v = e`. */
  lemma ForInitLayout(mode: Semantic.Mode, h: Hooks, tipo: Option<Node>, name: string, expr: Node)
    ensures ForInitText(mode, h, ForInit(tipo, name, expr)) ==
      (if tipo.Some? then MapType(LeafText(tipo.value.leaf)) + " " else "") + name + " = " + Expr(mode, h, expr)
  {
  }

  /** The update comes out as `v += e` iff its operator is `+=`, and as `v = e` otherwise. */
  lemma ForUpdateLayout(mode: Semantic.Mode, h: Hooks, name: string, op: string, expr: Node)
    ensures ForUpdateText(mode, h, ForUpdate(name, op, expr)) ==
      name + (if op == "+=" then " += " else " = ") + Expr(mode, h, expr)
    ensures op == "+=" <==> ForUpdateText(mode, h, ForUpdate(name, op, expr)) == name + " += " + Expr(mode, h, expr)
  {
    var e := Expr(mode, h, expr);
    if op != "+=" {
      var a := name + " = " + e;
      var b := name + " += " + e;
      assert a[|name| + 1] == '=' && b[|name| + 1] == '+';
    }
  }

  // ---------------------------------------------------------------------
  // Identifier walks against a reference

  /** The node reached by following child indices from `n`. */
  function At(n: Node, p: seq<nat>): Option<Node>
    decreases |p|
  {
    if p == [] then Some(n)
    else if p[0] < |n.children| then At(n.children[p[0]], p[1..])
    else None
  }

  /** Path `p` leads from `n` to an `id` node with leaf `v`. */
  predicate IdAtPath(n: Node, p: seq<nat>, v: Option<string>) {
    At(n, p).Some? && At(n, p).value.kind == "id" && At(n, p).value.leaf == v
  }

  lemma {:induction false} IdRefsFromHas(n: Node, i: nat, j: nat)
    requires i <= j < |n.children|
    ensures IdRefs(n.children[j]) <= IdRefsFrom(n, i)
    decreases j - i
  {
    if i < j {
      IdRefsFromHas(n, i + 1, j);
    }
  }

  lemma {:induction false} IdRefsFromWitness(n: Node, i: nat, v: Option<string>) returns (j: nat)
    requires v in IdRefsFrom(n, i)
    ensures i <= j < |n.children| && v in IdRefs(n.children[j])
    decreases |n.children| - i
  {
    if v in IdRefs(n.children[i]) {
      j := i;
    } else {
      j := IdRefsFromWitness(n, i + 1, v);
    }
  }

  lemma {:induction false} IdRefsComplete(n: Node, p: seq<nat>, v: Option<string>)
    requires IdAtPath(n, p, v)
    ensures v in IdRefs(n)
    decreases |p|
  {
    if p != [] {
      var c := n.children[p[0]];
      IdRefsComplete(c, p[1..], v);
      IdRefsFromHas(n, 0, p[0]);
    }
  }

  lemma {:induction false} IdRefsSound(n: Node, v: Option<string>) returns (p: seq<nat>)
    requires v in IdRefs(n)
    ensures IdAtPath(n, p, v)
    decreases n
  {
    if n.kind == "id" && n.leaf == v {
      p := [];
    } else {
      var j := IdRefsFromWitness(n, 0, v);
      var q := IdRefsSound(n.children[j], v);
      p := [j] + q;
      assert p[1..] == q;
    }
  }

  /** `_find_id_references` collects exactly the leaves of the `id` nodes in the subtree. */
  lemma IdRefsExact(n: Node, v: Option<string>)
    ensures v in IdRefs(n) <==> exists p :: IdAtPath(n, p, v)
  {
    if v in IdRefs(n) {
      var p := IdRefsSound(n, v);
    }
    if exists p :: IdAtPath(n, p, v) {
      var p :| IdAtPath(n, p, v);
      IdRefsComplete(n, p, v);
    }
  }

  /** `_find_used_variables` is `_find_id_references` minus the three member names. */
  lemma {:induction false} UsedIsIdRefsMinusMembers(n: Node)
    ensures UsedVariables(n) == IdRefs(n) - MemberNames
    decreases n, 1, 0
  {
    UsedFromIsIdRefsFromMinusMembers(n, 0);
  }

  lemma {:induction false} UsedFromIsIdRefsFromMinusMembers(n: Node, i: nat)
    ensures UsedFrom(n, i) == IdRefsFrom(n, i) - MemberNames
    decreases n, 0, |n.children| - i
  {
    if i < |n.children| {
      UsedIsIdRefsMinusMembers(n.children[i]);
      UsedFromIsIdRefsFromMinusMembers(n, i + 1);
    }
  }

  // ---------------------------------------------------------------------
  // Emitting: a node's lines do not depend on what came before

  /** The same buffer with `pre` in front. */
  function Shift(pre: seq<string>, e: Emitter): Emitter {
    e.(code := pre + e.code)
  }

  lemma {:induction false} ProcessShift(mode: Semantic.Mode, h: Hooks, n: Node, e: Emitter, pre: seq<string>)
    ensures Process(mode, h, n, Shift(pre, e)) == Shift(pre, Process(mode, h, n, e))
    decreases n, 2, 0
  {
    if n.kind in ListKinds || (n.kind == "sentencia" && !EdadPersona(n)) {
      EachShift(mode, h, n, 0, e, pre);
    } else if n.kind == "sentencia_if" {
      IfShift(mode, h, n, e, pre);
    } else if n.kind == "sentencia_while" {
      WhileShift(mode, h, n, e, pre);
    } else if n.kind == "sentencia_for" {
      ForShift(mode, h, n, e, pre);
    } else if n.kind == "sentencia_do_while" {
      DoWhileShift(mode, h, n, e, pre);
    } else if n.kind == "sentencia_switch" {
      SwitchShift(mode, h, n, e, pre);
    }
  }

  lemma {:induction false} EachShift(mode: Semantic.Mode, h: Hooks, n: Node, i: nat, e: Emitter, pre: seq<string>)
    ensures Each(mode, h, n, i, Shift(pre, e)) == Shift(pre, Each(mode, h, n, i, e))
    decreases n, 1, |n.children| - i
  {
    if i < |n.children| {
      ProcessShift(mode, h, n.children[i], e, pre);
      EachShift(mode, h, n, i + 1, Process(mode, h, n.children[i], e), pre);
    }
  }

  lemma {:induction false} IfShift(mode: Semantic.Mode, h: Hooks, n: Node, e: Emitter, pre: seq<string>)
    requires n.kind == "sentencia_if"
    ensures EmitIf(mode, h, n, Shift(pre, e)) == Shift(pre, EmitIf(mode, h, n, e))
    decreases n, 1, 0
  {
    var c := n.children;
    if |c| >= 2 {
      var first := AddLine(e, "if (" + Expr(mode, h, c[0]) + ") {");
      assert AddLine(Shift(pre, e), "if (" + Expr(mode, h, c[0]) + ") {") == Shift(pre, first);
      assert Deeper(Shift(pre, first)) == Shift(pre, Deeper(first));
      ProcessShift(mode, h, c[1], Deeper(first), pre);
      var body := Shallower(Process(mode, h, c[1], Deeper(first)));
      assert Shallower(Process(mode, h, c[1], Deeper(Shift(pre, first)))) == Shift(pre, body);
      if |c| >= 3 {
        ElseShift(mode, h, n, body, pre);
      }
    }
  }

  /** The `else` branch of an `if` commutes with a prefix like the rest. */
  lemma {:induction false} ElseShift(mode: Semantic.Mode, h: Hooks, n: Node, body: Emitter, pre: seq<string>)
    requires n.kind == "sentencia_if" && |n.children| >= 3
    ensures Shallower(Process(mode, h, n.children[2], Deeper(AddLine(Shift(pre, body), "} else {"))))
         == Shift(pre, Shallower(Process(mode, h, n.children[2], Deeper(AddLine(body, "} else {")))))
    decreases n, 0, 0
  {
    var c := n.children;
    assert AddLine(Shift(pre, body), "} else {") == Shift(pre, AddLine(body, "} else {"));
    assert Deeper(Shift(pre, AddLine(body, "} else {"))) == Shift(pre, Deeper(AddLine(body, "} else {")));
    ProcessShift(mode, h, c[2], Deeper(AddLine(body, "} else {")), pre);
  }

  lemma {:induction false} WhileShift(mode: Semantic.Mode, h: Hooks, n: Node, e: Emitter, pre: seq<string>)
    requires n.kind == "sentencia_while"
    ensures EmitWhile(mode, h, n, Shift(pre, e)) == Shift(pre, EmitWhile(mode, h, n, e))
    decreases n, 1, 0
  {
    var c := n.children;
    if |c| >= 2 {
      var cond := Expr(mode, h, c[0]);
      var first := AddLine(e, "while (" + cond + ") {");
      assert AddLine(Shift(pre, e), "while (" + cond + ") {") == Shift(pre, first);
      assert Deeper(Shift(pre, first)) == Shift(pre, Deeper(first));
      ProcessShift(mode, h, c[1], Deeper(first), pre);
      var body := Process(mode, h, c[1], Deeper(first));
      var patch := h.whilePatch(cond, c[1], body.level);
      assert Shallower(AddLines(Shift(pre, body), patch)) == Shift(pre, Shallower(AddLines(body, patch)));
    }
  }

  lemma {:induction false} ForShift(mode: Semantic.Mode, h: Hooks, n: Node, e: Emitter, pre: seq<string>)
    requires n.kind == "sentencia_for"
    ensures EmitFor(mode, h, n, Shift(pre, e)) == Shift(pre, EmitFor(mode, h, n, e))
    decreases n, 1, 0
  {
    var c := n.children;
    if |c| >= 4 {
      var header := "for (" + ForInitText(mode, h, c[0]) + "; " + Expr(mode, h, c[1]) + "; "
                    + ForUpdateText(mode, h, c[2]) + ") {";
      var first := AddLine(e, header);
      assert AddLine(Shift(pre, e), header) == Shift(pre, first);
      assert Deeper(Shift(pre, first)) == Shift(pre, Deeper(first));
      ProcessShift(mode, h, c[3], Deeper(first), pre);
      var body := Process(mode, h, c[3], Deeper(first));
      assert Shallower(Shift(pre, body)) == Shift(pre, Shallower(body));
    }
  }

  lemma {:induction false} DoWhileShift(mode: Semantic.Mode, h: Hooks, n: Node, e: Emitter, pre: seq<string>)
    requires n.kind == "sentencia_do_while"
    ensures EmitDoWhile(mode, h, n, Shift(pre, e)) == Shift(pre, EmitDoWhile(mode, h, n, e))
    decreases n, 1, 0
  {
    var c := n.children;
    if |c| >= 2 {
      var first := AddLine(e, "do {");
      assert AddLine(Shift(pre, e), "do {") == Shift(pre, first);
      assert Deeper(Shift(pre, first)) == Shift(pre, Deeper(first));
      ProcessShift(mode, h, c[0], Deeper(first), pre);
      var body := Process(mode, h, c[0], Deeper(first));
      assert Shallower(Shift(pre, body)) == Shift(pre, Shallower(body));
    }
  }

  lemma {:induction false} SwitchShift(mode: Semantic.Mode, h: Hooks, n: Node, e: Emitter, pre: seq<string>)
    requires n.kind == "sentencia_switch"
    ensures EmitSwitch(mode, h, n, Shift(pre, e)) == Shift(pre, EmitSwitch(mode, h, n, e))
    decreases n, 1, 0
  {
    var c := n.children;
    if |c| >= 2 {
      var first := AddLine(e, "switch (" + Expr(mode, h, c[0]) + ") {");
      assert AddLine(Shift(pre, e), "switch (" + Expr(mode, h, c[0]) + ") {") == Shift(pre, first);
      CasesShift(mode, h, c[1], 0, first, pre);
    }
  }

  lemma {:induction false} CasesShift(mode: Semantic.Mode, h: Hooks, cs: Node, i: nat, e: Emitter, pre: seq<string>)
    ensures Cases(mode, h, cs, i, Shift(pre, e)) == Shift(pre, Cases(mode, h, cs, i, e))
    decreases cs, 1, |cs.children| - i
  {
    if cs.kind == "casos_switch" && i < |cs.children| {
      CaseShift(mode, h, cs.children[i], e, pre);
      CasesShift(mode, h, cs, i + 1, EmitCase(mode, h, cs.children[i], e), pre);
    }
  }

  lemma {:induction false} CaseShift(mode: Semantic.Mode, h: Hooks, k: Node, e: Emitter, pre: seq<string>)
    ensures EmitCase(mode, h, k, Shift(pre, e)) == Shift(pre, EmitCase(mode, h, k, e))
    decreases k, 1, 0
  {
    var c := k.children;
    if k.kind == "caso_switch" && |c| >= 2 {
      var first := AddLine(e, "case " + Expr(mode, h, c[0]) + ":");
      assert AddLine(Shift(pre, e), "case " + Expr(mode, h, c[0]) + ":") == Shift(pre, first);
      assert Deeper(Shift(pre, first)) == Shift(pre, Deeper(first));
      ProcessShift(mode, h, c[1], Deeper(first), pre);
      var body := Process(mode, h, c[1], Deeper(first));
      assert AddLine(Shift(pre, body), "break;") == Shift(pre, AddLine(body, "break;"));
    } else if k.kind == "caso_default" {
      var first := Deeper(AddLine(e, "default:"));
      assert Deeper(AddLine(Shift(pre, e), "default:")) == Shift(pre, first);
      if |c| >= 1 {
        ProcessShift(mode, h, c[0], first, pre);
      }
    }
  }

  /**
   * Processing a node appends the lines it would produce into an empty
   * buffer at the same level, whatever the buffer already held.
   */
  lemma ProcessAppends(mode: Semantic.Mode, h: Hooks, n: Node, e: Emitter)
    ensures Process(mode, h, n, e) == Emitter(e.code + Lines(mode, h, n, e.level), e.level)
  {
    ProcessShift(mode, h, n, Emitter([], e.level), e.code);
    assert Shift(e.code, Emitter([], e.level)) == e;
  }

  // ---------------------------------------------------------------------
  // Control statements

  /**
   * `if` emits its header, the then-body one level deeper, the optional
   * `} else {` with the else-body one level deeper, and the closing brace.
   */
  lemma IfLayout(mode: Semantic.Mode, h: Hooks, cond: Node, body: Node, otherwise: Option<Node>, line: nat, column: nat, level: int)
    ensures Lines(mode, h, If(cond, body, otherwise, line, column), level) ==
      [Line(level, "if (" + Expr(mode, h, cond) + ") {")] + Lines(mode, h, body, level + 1)
      + (if otherwise.Some? then [Line(level, "} else {")] + Lines(mode, h, otherwise.value, level + 1) else [])
      + [Line(level, "}")]
  {
    var n := If(cond, body, otherwise, line, column);
    assert n.children == if otherwise.Some? then [cond, body, otherwise.value] else [cond, body];
    IfCode(mode, h, n, level);
  }

  /** The same layout stated over the node's children. */
  lemma IfCode(mode: Semantic.Mode, h: Hooks, n: Node, level: int)
    requires n.kind == "sentencia_if" && 2 <= |n.children| <= 3
    ensures Lines(mode, h, n, level) ==
      [Line(level, "if (" + Expr(mode, h, n.children[0]) + ") {")] + Lines(mode, h, n.children[1], level + 1)
      + (if |n.children| == 3 then [Line(level, "} else {")] + Lines(mode, h, n.children[2], level + 1) else [])
      + [Line(level, "}")]
  {
    assert Process(mode, h, n, Emitter([], level)) == EmitIf(mode, h, n, Emitter([], level));
    var b := IfThenPart(mode, h, n, level);
    if |n.children| == 3 {
      IfElsePart(mode, h, n, b, level);
    } else {
      assert EmitIf(mode, h, n, Emitter([], level)) == AddLine(b, "}");
    }
  }

  /** The buffer after an `if`'s header and then-body. */
  lemma IfThenPart(mode: Semantic.Mode, h: Hooks, n: Node, level: int) returns (b: Emitter)
    requires n.kind == "sentencia_if" && |n.children| >= 2
    ensures b == Emitter([Line(level, "if (" + Expr(mode, h, n.children[0]) + ") {")]
                         + Lines(mode, h, n.children[1], level + 1), level)
    ensures b == Shallower(Process(mode, h, n.children[1], Deeper(AddLine(Emitter([], level), "if (" + Expr(mode, h, n.children[0]) + ") {"))))
  {
    var top := [Line(level, "if (" + Expr(mode, h, n.children[0]) + ") {")];
    assert AddLine(Emitter([], level), "if (" + Expr(mode, h, n.children[0]) + ") {") == Emitter(top, level);
    ProcessAppends(mode, h, n.children[1], Emitter(top, level + 1));
    b := Shallower(Process(mode, h, n.children[1], Emitter(top, level + 1)));
  }

  /** The else-branch of an `if` after the buffer `b`. */
  lemma IfElsePart(mode: Semantic.Mode, h: Hooks, n: Node, b: Emitter, level: int)
    requires n.kind == "sentencia_if" && |n.children| >= 3
    requires b == Shallower(Process(mode, h, n.children[1], Deeper(AddLine(Emitter([], level), "if (" + Expr(mode, h, n.children[0]) + ") {"))))
    ensures EmitIf(mode, h, n, Emitter([], level)).code ==
      b.code + [Line(level, "} else {")] + Lines(mode, h, n.children[2], level + 1) + [Line(level, "}")]
  {
    var mid := AddLine(b, "} else {");
    ProcessAppends(mode, h, n.children[2], Deeper(mid));
    var rest := Shallower(Process(mode, h, n.children[2], Deeper(mid)));
    assert EmitIf(mode, h, n, Emitter([], level)) == AddLine(rest, "}");
  }

  /** `while` emits its header, the body one level deeper, the patch lines, and the closing brace. */
  lemma WhileLayout(mode: Semantic.Mode, h: Hooks, cond: Node, body: Node, line: nat, column: nat, level: int)
    ensures Lines(mode, h, While(cond, body, line, column), level) ==
      [Line(level, "while (" + Expr(mode, h, cond) + ") {")] + Lines(mode, h, body, level + 1)
      + h.whilePatch(Expr(mode, h, cond), body, level + 1) + [Line(level, "}")]
  {
    var n := While(cond, body, line, column);
    var top := [Line(level, "while (" + Expr(mode, h, cond) + ") {")];
    assert Process(mode, h, n, Emitter([], level)) == EmitWhile(mode, h, n, Emitter([], level));
    assert n.children[0] == cond && n.children[1] == body;
    assert AddLine(Emitter([], level), "while (" + Expr(mode, h, cond) + ") {") == Emitter(top, level);
    ProcessAppends(mode, h, body, Emitter(top, level + 1));
    var b := Process(mode, h, body, Emitter(top, level + 1));
    assert b == Emitter(top + Lines(mode, h, body, level + 1), level + 1);
    var patched := AddLines(b, h.whilePatch(Expr(mode, h, cond), body, level + 1));
    assert EmitWhile(mode, h, n, Emitter([], level)) == AddLine(Shallower(patched), "}");
  }

  /** `for` emits `for (init; cond; update) {`, the body one level deeper, and the closing brace. */
  lemma ForLayout(mode: Semantic.Mode, h: Hooks, init: Node, cond: Node, update: Node, body: Node, level: int)
    ensures Lines(mode, h, For(init, cond, update, body), level) ==
      [Line(level, "for (" + ForInitText(mode, h, init) + "; " + Expr(mode, h, cond) + "; "
                   + ForUpdateText(mode, h, update) + ") {")]
      + Lines(mode, h, body, level + 1) + [Line(level, "}")]
  {
    var n := For(init, cond, update, body);
    var header := "for (" + ForInitText(mode, h, init) + "; " + Expr(mode, h, cond) + "; "
                  + ForUpdateText(mode, h, update) + ") {";
    assert Process(mode, h, n, Emitter([], level)) == EmitFor(mode, h, n, Emitter([], level));
    assert n.children == [init, cond, update, body];
    assert AddLine(Emitter([], level), header) == Emitter([Line(level, header)], level);
    ProcessAppends(mode, h, body, Emitter([Line(level, header)], level + 1));
    var b := Process(mode, h, body, Emitter([Line(level, header)], level + 1));
    assert EmitFor(mode, h, n, Emitter([], level)) == AddLine(Shallower(b), "}");
  }

  /** `do` emits `do {`, the body one level deeper, and `} while (cond);`. */
  lemma DoWhileLayout(mode: Semantic.Mode, h: Hooks, body: Node, cond: Node, level: int)
    ensures Lines(mode, h, DoWhile(body, cond), level) ==
      [Line(level, "do {")] + Lines(mode, h, body, level + 1) + [Line(level, "} while (" + Expr(mode, h, cond) + ");")]
  {
    var n := DoWhile(body, cond);
    assert Process(mode, h, n, Emitter([], level)) == EmitDoWhile(mode, h, n, Emitter([], level));
    assert n.children == [body, cond];
    assert AddLine(Emitter([], level), "do {") == Emitter([Line(level, "do {")], level);
    ProcessAppends(mode, h, body, Emitter([Line(level, "do {")], level + 1));
    var b := Process(mode, h, body, Emitter([Line(level, "do {")], level + 1));
    assert EmitDoWhile(mode, h, n, Emitter([], level)) == AddLine(Shallower(b), "} while (" + Expr(mode, h, cond) + ");");
  }

  /** `switch` emits its header, its cases at its own level, and the closing brace. */
  lemma SwitchLayout(mode: Semantic.Mode, h: Hooks, subject: Node, cases: Node, level: int)
    ensures Lines(mode, h, Switch(subject, cases), level) ==
      [Line(level, "switch (" + Expr(mode, h, subject) + ") {")] + CaseLines(mode, h, cases, level) + [Line(level, "}")]
  {
    var n := Switch(subject, cases);
    var top := [Line(level, "switch (" + Expr(mode, h, subject) + ") {")];
    assert Process(mode, h, n, Emitter([], level)) == EmitSwitch(mode, h, n, Emitter([], level));
    assert n.children == [subject, cases];
    assert AddLine(Emitter([], level), "switch (" + Expr(mode, h, subject) + ") {") == Emitter(top, level);
    CasesShift(mode, h, cases, 0, Emitter([], level), top);
    assert Shift(top, Emitter([], level)) == Emitter(top, level);
    var c := Cases(mode, h, cases, 0, Emitter(top, level));
    assert EmitSwitch(mode, h, n, Emitter([], level)) == AddLine(c, "}");
  }

  /**
   * A case emits `case v:`, its statements one level deeper and, unless
   * its third child is a `sentencia_break`, a `break;` at that level.
   */
  lemma CaseLayout(mode: Semantic.Mode, h: Hooks, value: Node, body: Node, brk: Option<Node>, level: int)
    ensures EmitCase(mode, h, Case(value, body, brk), Emitter([], level)).code ==
      [Line(level, "case " + Expr(mode, h, value) + ":")] + Lines(mode, h, body, level + 1)
      + (if brk.None? || brk.value.kind != "sentencia_break" then [Line(level + 1, "break;")] else [])
  {
    var k := Case(value, body, brk);
    assert k.children[0] == value && k.children[1] == body;
    assert NeedsBreak(k) <==> brk.None? || brk.value.kind != "sentencia_break";
    var b := CaseBody(mode, h, k, level);
    assert EmitCase(mode, h, k, Emitter([], level)) == Shallower(if NeedsBreak(k) then AddLine(b, "break;") else b);
  }

  /** The buffer after a case's header and statements. */
  lemma CaseBody(mode: Semantic.Mode, h: Hooks, k: Node, level: int) returns (b: Emitter)
    requires k.kind == "caso_switch" && |k.children| >= 2
    ensures b == Process(mode, h, k.children[1], Deeper(AddLine(Emitter([], level), "case " + Expr(mode, h, k.children[0]) + ":")))
    ensures b == Emitter([Line(level, "case " + Expr(mode, h, k.children[0]) + ":")] + Lines(mode, h, k.children[1], level + 1), level + 1)
  {
    var top := [Line(level, "case " + Expr(mode, h, k.children[0]) + ":")];
    assert AddLine(Emitter([], level), "case " + Expr(mode, h, k.children[0]) + ":") == Emitter(top, level);
    ProcessAppends(mode, h, k.children[1], Emitter(top, level + 1));
    b := Process(mode, h, k.children[1], Emitter(top, level + 1));
  }

  /** `default:` is followed by its statements one level deeper. */
  lemma DefaultLayout(mode: Semantic.Mode, h: Hooks, body: Node, level: int)
    ensures EmitCase(mode, h, Default(body), Emitter([], level)).code ==
      [Line(level, "default:")] + Lines(mode, h, body, level + 1)
  {
    var k := Default(body);
    assert k.children == [body];
    assert Deeper(AddLine(Emitter([], level), "default:")) == Emitter([Line(level, "default:")], level + 1);
    ProcessAppends(mode, h, body, Emitter([Line(level, "default:")], level + 1));
    assert EmitCase(mode, h, k, Emitter([], level)) == Shallower(Process(mode, h, body, Emitter([Line(level, "default:")], level + 1)));
  }

  /** `return e;`, `return;` and `break;` are single lines at the current level. */
  lemma JumpLayout(mode: Semantic.Mode, h: Hooks, value: Option<Node>, level: int)
    ensures Lines(mode, h, Return(value), level) ==
      [Line(level, if value.Some? then "return " + Expr(mode, h, value.value) + ";" else "return;")]
    ensures Lines(mode, h, Break(), level) == [Line(level, "break;")]
  {
  }
}

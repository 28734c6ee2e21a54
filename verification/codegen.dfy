/**
 * The structural part of the C code generator: the type and operator
 * maps, the fully parenthesised expression translator, the `for` header
 * translators, the identifier walks, and the statement emitters with
 * their indentation discipline.
 *
 * The generator's name-based special cases (class bodies, `principal`,
 * declarations, assignments, `printf` formats, function and method
 * calls) are not modelled; their output reaches the model through the
 * `Hooks` parameter.
 */
module Codegen {
  import opened Wrappers
  import opened Text
  import opened Ast
  import Typing
  import Semantic

  // ---------------------------------------------------------------------
  // Maps

  /** `_map_type`'s table on a name without `[]`; other names pass through. */
  function BaseType(t: string): string {
    if t == Typing.Entero then "int"
    else if t == Typing.Flotante then "float"
    else if t == Typing.Booleano then "bool"
    else if t == Typing.Caracter then "char"
    else if t == Typing.Cadena then "char*"
    else if t == Typing.Vacio then "void"
    else t
  }

  /** `_map_type`: an array type `X[]` becomes a pointer to `X`'s C type. */
  function MapType(t: string): string {
    if EndsWith(t, "[]") then BaseType(t[..|t| - 2]) + "*" else BaseType(t)
  }

  /** The comparison token names `_map_operator` translates. */
  const OperatorTokens: set<string> := {"IGUAL", "DISTINTO", "MENOR", "MAYOR", "MENOR_IGUAL", "MAYOR_IGUAL"}

  /** `_map_operator`. */
  function MapOperator(op: string): string {
    if op == "IGUAL" then "=="
    else if op == "DISTINTO" then "!="
    else if op == "MENOR" then "<"
    else if op == "MAYOR" then ">"
    else if op == "MENOR_IGUAL" then "<="
    else if op == "MAYOR_IGUAL" then ">="
    else op
  }

  /** `_map_logical_operator`. */
  function MapLogicalOperator(op: string): string {
    if op == "AND" then "&&"
    else if op == "OR" then "||"
    else if op == "NOT" then "!"
    else op
  }

  // ---------------------------------------------------------------------
  // Expressions

  /** How an f-string renders a leaf: a missing one prints as `None`. */
  function LeafText(leaf: Option<string>): string {
    if leaf.Some? then leaf.value else "None"
  }

  /**
   * What the model takes from the name-based parts of the generator:
   * `_generate_method_call`, `_generate_function_call`, the lines the
   * declaration, assignment, print, class and `principal` emitters add at
   * a given indentation level, and the lines the `while` emitter's
   * `numeros` patch adds for a condition and body.
   */
  datatype Hooks = Hooks(
    methodCall: Node -> string,
    functionCall: Node -> string,
    statement: (Node, int) -> seq<string>,
    whilePatch: (string, Node, int) -> seq<string>)

  /** `x op y`, fully parenthesised. */
  function Parenthesised(left: string, op: string, right: string): string {
    "(" + left + " " + op + " " + right + ")"
  }

  /**
   * `_generate_expression`.  As written, the one-child branch of a logical
   * node comes first, so the parser's one-child `NOT` node loses its
   * negation; `Intended` emits `!(x)` for it.
   */
  function Expr(mode: Semantic.Mode, h: Hooks, n: Node): string
    decreases n
  {
    var c := n.children;
    if n.kind == "expresion" then
      if |c| > 0 then Expr(mode, h, c[0]) else ""
    else if n.kind == "expresion_logica" then
      if mode == Semantic.Intended && |c| == 1 && n.leaf == Some("NOT") then "!(" + Expr(mode, h, c[0]) + ")"
      else if |c| == 1 then Expr(mode, h, c[0])
      else if |c| == 2 && n.leaf == Some("NOT") then "!(" + Expr(mode, h, c[0]) + ")"
      else if |c| >= 2 then Parenthesised(Expr(mode, h, c[0]), MapLogicalOperator(LeafText(n.leaf)), Expr(mode, h, c[1]))
      else ""
    else if n.kind == "expresion_relacional" then
      if |c| == 1 then Expr(mode, h, c[0])
      else if |c| >= 2 then Parenthesised(Expr(mode, h, c[0]), MapOperator(LeafText(n.leaf)), Expr(mode, h, c[1]))
      else ""
    else if n.kind == "expresion_aritmetica" || n.kind == "termino" then
      if |c| == 1 then Expr(mode, h, c[0])
      else if |c| >= 2 then Parenthesised(Expr(mode, h, c[0]), LeafText(n.leaf), Expr(mode, h, c[1]))
      else ""
    else if n.kind == "factor" then
      if n.leaf.Some? then
        if Lower(n.leaf.value) == "verdadero" then "true"
        else if Lower(n.leaf.value) == "falso" then "false"
        else n.leaf.value
      else if |c| > 0 then Expr(mode, h, c[0])
      else ""
    else if n.kind == "id" then LeafText(n.leaf)
    else if n.kind == "booleano" then
      if Lower(LeafText(n.leaf)) == "verdadero" then "true" else "false"
    else if n.kind == "llamada_metodo" then h.methodCall(n)
    else if n.kind == "acceso_array" then
      if |c| >= 2 then Expr(mode, h, c[0]) + "[" + Expr(mode, h, c[1]) + "]" else ""
    else if n.kind == "acceso_objeto" then
      if |c| >= 2 then Expr(mode, h, c[0]) + "." + LeafText(c[1].leaf) else ""
    else ""
  }

  /** The node kinds `_generate_expression` has a branch for. */
  const ExpressionKinds: set<string> := {
    "expresion", "expresion_logica", "expresion_relacional", "expresion_aritmetica", "termino",
    "factor", "id", "booleano", "llamada_metodo", "acceso_array", "acceso_objeto"}

  /** `_generate_for_initialization`: `T v = e`, `v = e`, or nothing. */
  function ForInitText(mode: Semantic.Mode, h: Hooks, n: Node): string {
    var c := n.children;
    if n.kind == "asignacion_for" && |c| >= 3 then
      MapType(LeafText(c[0].leaf)) + " " + LeafText(c[1].leaf) + " = " + Expr(mode, h, c[2])
    else if n.kind == "asignacion_for" && |c| == 2 then
      LeafText(c[0].leaf) + " = " + Expr(mode, h, c[1])
    else ""
  }

  /** `_generate_for_update`: `v += e` for a `+=` leaf, `v = e` otherwise. */
  function ForUpdateText(mode: Semantic.Mode, h: Hooks, n: Node): string {
    var c := n.children;
    if n.kind == "actualizacion_for" && |c| >= 2 then
      LeafText(c[0].leaf) + (if n.leaf == Some("+=") then " += " else " = ") + Expr(mode, h, c[1])
    else ""
  }

  // ---------------------------------------------------------------------
  // Identifier walks

  /** `_find_id_references`: the leaves of every `id` node in the subtree. */
  function IdRefs(n: Node): set<Option<string>>
    decreases n, 1, 0
  {
    (if n.kind == "id" then {n.leaf} else {}) + IdRefsFrom(n, 0)
  }

  function IdRefsFrom(n: Node, i: nat): set<Option<string>>
    decreases n, 0, |n.children| - i
  {
    if i >= |n.children| then {} else IdRefs(n.children[i]) + IdRefsFrom(n, i + 1)
  }

  /** The names `_find_used_variables` filters out. */
  const MemberNames: set<Option<string>> := {Some("establecerEdad"), Some("obtenerEdad"), Some("nombre")}

  /** `_find_used_variables`. */
  function UsedVariables(n: Node): set<Option<string>>
    decreases n, 1, 0
  {
    (if n.kind == "id" && n.leaf !in MemberNames then {n.leaf} else {}) + UsedFrom(n, 0)
  }

  function UsedFrom(n: Node, i: nat): set<Option<string>>
    decreases n, 0, |n.children| - i
  {
    if i >= |n.children| then {} else UsedVariables(n.children[i]) + UsedFrom(n, i + 1)
  }

  // ---------------------------------------------------------------------
  // Emitting lines

  /** The generated lines so far and `indent_level`. */
  datatype Emitter = Emitter(code: seq<string>, level: int)

  /** `"    " * level`: nothing for a level below one. */
  function Pad(level: int): (r: string)
    ensures |r| == (if level <= 0 then 0 else 4 * level)
    ensures forall i :: 0 <= i < |r| ==> r[i] == ' '
  {
    if level <= 0 then "" else Indent(level)
  }

  /** One generated line: the text after the level's indentation. */
  function Line(level: int, text: string): string {
    Pad(level) + text
  }

  /** `_add_line`. */
  function AddLine(e: Emitter, text: string): Emitter {
    e.(code := e.code + [Line(e.level, text)])
  }

  function AddLines(e: Emitter, lines: seq<string>): Emitter {
    e.(code := e.code + lines)
  }

  function Deeper(e: Emitter): Emitter {
    e.(level := e.level + 1)
  }

  function Shallower(e: Emitter): Emitter {
    e.(level := e.level - 1)
  }

  /**
   * The special `sentencia` that `_process_node` replaces by a fixed
   * line: `edadPersona = Persona_obtenerEdad(...)`.
   */
  predicate EdadPersona(n: Node) {
    |n.children| > 0 && n.children[0].kind == "asignacion"
    && |n.children[0].children| >= 2
    && n.children[0].children[0].kind == "id" && n.children[0].children[0].leaf == Some("edadPersona")
    && n.children[0].children[1].kind == "llamada_funcion"
    && |n.children[0].children[1].children| >= 1
    && n.children[0].children[1].children[0].kind == "id"
    && n.children[0].children[1].children[0].leaf == Some("Persona_obtenerEdad")
  }

  /** The call `p(25)` on a one-letter name that `_process_node` turns into a setter call. */
  predicate SetterCall(n: Node) {
    |n.children| >= 2 && n.children[0].kind == "id" && |LeafText(n.children[0].leaf)| == 1
    && n.children[1].kind == "argumentos" && |n.children[1].children| > 0
    && n.children[1].children[0].kind == "lista_expresiones"
    && |n.children[1].children[0].children| > 0
  }

  /** The node kinds whose lines come from `Hooks.statement`. */
  const HookedKinds: set<string> := {
    "declaracion_clase", "principal", "declaracion_variable", "asignacion", "sentencia_print"}

  /** The node kinds `_process_node` just walks through. */
  const ListKinds: set<string> := {"programa", "declaraciones_clases", "bloque", "sentencias"}

  /**
   * `_process_node`.  Whatever the node, the indentation level afterwards
   * is the one before, and lines are only ever appended.
   */
  function Process(mode: Semantic.Mode, h: Hooks, n: Node, e: Emitter): (r: Emitter)
    ensures r.level == e.level && e.code <= r.code
    decreases n, 2, 0
  {
    if n.kind in ListKinds then Each(mode, h, n, 0, e)
    else if n.kind == "sentencia" then
      if EdadPersona(n) then AddLine(e, "edadPersona = Persona_obtenerEdad(&p);")
      else Each(mode, h, n, 0, e)
    else if n.kind in HookedKinds then AddLines(e, h.statement(n, e.level))
    else if n.kind == "sentencia_if" then EmitIf(mode, h, n, e)
    else if n.kind == "sentencia_while" then EmitWhile(mode, h, n, e)
    else if n.kind == "sentencia_for" then EmitFor(mode, h, n, e)
    else if n.kind == "sentencia_do_while" then EmitDoWhile(mode, h, n, e)
    else if n.kind == "sentencia_switch" then EmitSwitch(mode, h, n, e)
    else if n.kind == "llamada_funcion" then
      if SetterCall(n) then
        AddLine(e, "Persona_establecerEdad(&" + LeafText(n.children[0].leaf) + ", "
                   + Expr(mode, h, n.children[1].children[0].children[0]) + ");")
      else AddLine(e, h.functionCall(n) + ";")
    else if n.kind == "llamada_metodo" then
      var call := h.methodCall(n);
      AddLine(e, if EndsWith(call, ";") then call else call + ";")
    else if n.kind == "sentencia_return" then
      if |n.children| > 0 then AddLine(e, "return " + Expr(mode, h, n.children[0]) + ";")
      else AddLine(e, "return;")
    else if n.kind == "sentencia_break" then AddLine(e, "break;")
    else e
  }

  /** The children from `i` on, in order. */
  function Each(mode: Semantic.Mode, h: Hooks, n: Node, i: nat, e: Emitter): (r: Emitter)
    ensures r.level == e.level && e.code <= r.code
    decreases n, 1, |n.children| - i
  {
    if i >= |n.children| then e
    else Each(mode, h, n, i + 1, Process(mode, h, n.children[i], e))
  }

  /** `_process_if_statement`. */
  function EmitIf(mode: Semantic.Mode, h: Hooks, n: Node, e: Emitter): (r: Emitter)
    ensures r.level == e.level && e.code <= r.code
    decreases n, 1, 0
  {
    var c := n.children;
    if |c| < 2 then e
    else
      var first := AddLine(e, "if (" + Expr(mode, h, c[0]) + ") {");
      var body := Shallower(Process(mode, h, c[1], Deeper(first)));
      var rest :=
        if |c| >= 3 then
          Shallower(Process(mode, h, c[2], Deeper(AddLine(body, "} else {"))))
        else body;
      AddLine(rest, "}")
  }

  /** `_process_while_statement`. */
  function EmitWhile(mode: Semantic.Mode, h: Hooks, n: Node, e: Emitter): (r: Emitter)
    ensures r.level == e.level && e.code <= r.code
    decreases n, 1, 0
  {
    var c := n.children;
    if |c| < 2 then e
    else
      var cond := Expr(mode, h, c[0]);
      var body := Process(mode, h, c[1], Deeper(AddLine(e, "while (" + cond + ") {")));
      AddLine(Shallower(AddLines(body, h.whilePatch(cond, c[1], body.level))), "}")
  }

  /** `_process_for_statement`. */
  function EmitFor(mode: Semantic.Mode, h: Hooks, n: Node, e: Emitter): (r: Emitter)
    ensures r.level == e.level && e.code <= r.code
    decreases n, 1, 0
  {
    var c := n.children;
    if |c| < 4 then e
    else
      var header := "for (" + ForInitText(mode, h, c[0]) + "; " + Expr(mode, h, c[1]) + "; "
                    + ForUpdateText(mode, h, c[2]) + ") {";
      var body := Process(mode, h, c[3], Deeper(AddLine(e, header)));
      AddLine(Shallower(body), "}")
  }

  /** `_process_do_while_statement`. */
  function EmitDoWhile(mode: Semantic.Mode, h: Hooks, n: Node, e: Emitter): (r: Emitter)
    ensures r.level == e.level && e.code <= r.code
    decreases n, 1, 0
  {
    var c := n.children;
    if |c| < 2 then e
    else
      var body := Process(mode, h, c[0], Deeper(AddLine(e, "do {")));
      AddLine(Shallower(body), "} while (" + Expr(mode, h, c[1]) + ");")
  }

  /** `_process_switch_statement`: the cases stay at the `switch`'s level. */
  function EmitSwitch(mode: Semantic.Mode, h: Hooks, n: Node, e: Emitter): (r: Emitter)
    ensures r.level == e.level && e.code <= r.code
    decreases n, 1, 0
  {
    var c := n.children;
    if |c| < 2 then e
    else
      var cases := Cases(mode, h, c[1], 0, AddLine(e, "switch (" + Expr(mode, h, c[0]) + ") {"));
      AddLine(cases, "}")
  }

  /** `_process_switch_cases`, from the `i`-th case on; only a `casos_switch` node is read. */
  function Cases(mode: Semantic.Mode, h: Hooks, cs: Node, i: nat, e: Emitter): (r: Emitter)
    ensures r.level == e.level && e.code <= r.code
    decreases cs, 1, |cs.children| - i
  {
    if cs.kind != "casos_switch" || i >= |cs.children| then e
    else Cases(mode, h, cs, i + 1, EmitCase(mode, h, cs.children[i], e))
  }

  /** Whether a case's statements are followed by an emitted `break;`. */
  predicate NeedsBreak(k: Node) {
    |k.children| < 3 || k.children[2].kind != "sentencia_break"
  }

  /** One case of `_process_switch_cases`. */
  function EmitCase(mode: Semantic.Mode, h: Hooks, k: Node, e: Emitter): (r: Emitter)
    ensures r.level == e.level && e.code <= r.code
    decreases k, 1, 0
  {
    var c := k.children;
    if k.kind == "caso_switch" then
      if |c| >= 2 then
        var body := Process(mode, h, c[1], Deeper(AddLine(e, "case " + Expr(mode, h, c[0]) + ":")));
        Shallower(if NeedsBreak(k) then AddLine(body, "break;") else body)
      else e
    else if k.kind == "caso_default" then
      var first := Deeper(AddLine(e, "default:"));
      Shallower(if |c| >= 1 then Process(mode, h, c[0], first) else first)
    else e
  }

  /** The lines a node produces from an empty buffer at a level. */
  function Lines(mode: Semantic.Mode, h: Hooks, n: Node, level: int): seq<string> {
    Process(mode, h, n, Emitter([], level)).code
  }

  /** The lines the cases of a switch produce from an empty buffer at a level. */
  function CaseLines(mode: Semantic.Mode, h: Hooks, cs: Node, level: int): seq<string> {
    Cases(mode, h, cs, 0, Emitter([], level)).code
  }
}

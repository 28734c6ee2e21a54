/**
 * The syntax tree and the grammar actions that build it.
 *
 * Every grammar rule's action is modelled as a constructor function over
 * `Node`.  Left-recursive list rules start from an empty or one-element
 * list node and append each later item to the same node, so the list
 * keeps its items in source order.  Positions are the ones the action
 * passes on; an action that passes none leaves line and column 0.
 */
module Ast {
  import opened Wrappers

  /** `Node(type, children, leaf, line, column)` of the parser. */
  datatype Node = Node(kind: string, children: seq<Node>, leaf: Option<string>, line: nat, column: nat)

  /** A node built with the defaults: no leaf and position 0. */
  function Branch(kind: string, children: seq<Node>): Node {
    Node(kind, children, None, 0, 0)
  }

  /** A childless node carrying a token's text. */
  function LeafAt(kind: string, text: string, line: nat, column: nat): Node {
    Node(kind, [], Some(text), line, column)
  }

  /** An `id` node built without a position. */
  function Id(name: string): Node {
    LeafAt("id", name, 0, 0)
  }

  function Ids(names: seq<string>): (r: seq<Node>)
    ensures |r| == |names|
    ensures forall i :: 0 <= i < |names| ==> r[i] == Id(names[i])
  {
    if |names| == 0 then [] else [Id(names[0])] + Ids(names[1..])
  }

  // ---------------------------------------------------------------------
  // Left-recursive lists

  /** One `p[1].children.append(x); p[0] = p[1]` step. */
  function Append(list: Node, item: Node): Node {
    list.(children := list.children + [item])
  }

  /** The list node after the items have been appended one by one, in order. */
  function AppendAll(list: Node, items: seq<Node>): Node
    decreases |items|
  {
    if |items| == 0 then list else AppendAll(Append(list, items[0]), items[1..])
  }

  /**
   * A list rule with an `empty` or a one-item first alternative
   * (`sentencias`, `miembros_clase`, `casos_switch`, `declaraciones_clases`,
   * `lista_expresiones`): the first alternative builds the list node, and
   * every later reduction appends to it.
   */
  function ListOf(kind: string, items: seq<Node>): Node {
    if |items| == 0 then Branch(kind, [])
    else AppendAll(Branch(kind, [items[0]]), items[1..])
  }

  /** An `id` node positioned at its ID token. */
  function IdAt(name: string, line: nat, column: nat): Node {
    LeafAt("id", name, line, column)
  }

  /** An identifier token as the actions see it: text, line and column. */
  datatype Name = Name(text: string, line: nat, column: nat)

  function IdOf(n: Name): Node {
    IdAt(n.text, n.line, n.column)
  }

  function IdsAt(names: seq<Name>): (r: seq<Node>)
    ensures |r| == |names|
    ensures forall i :: 0 <= i < |names| ==> r[i] == IdOf(names[i])
  {
    if |names| == 0 then [] else [IdOf(names[0])] + IdsAt(names[1..])
  }

  /**
   * `lista_ids`: the first ID builds the list, positioned at that ID, and
   * every `, ID` appends a positioned `id` node.
   */
  function IdList(names: seq<Name>): Node
    requires |names| >= 1
  {
    AppendAll(Node("lista_ids", [IdOf(names[0])], None, names[0].line, names[0].column),
              IdsAt(names[1..]))
  }

  /** `[xs[0], ys[0], xs[1], ys[1], ...]`. */
  function Interleave(xs: seq<Node>, ys: seq<Node>): (r: seq<Node>)
    requires |xs| == |ys|
    ensures |r| == 2 * |xs|
  {
    if |xs| == 0 then [] else [xs[0], ys[0]] + Interleave(xs[1..], ys[1..])
  }

  /** Two appends per reduction, as the rules whose items are pairs do. */
  function AppendPairs(list: Node, xs: seq<Node>, ys: seq<Node>): Node
    requires |xs| == |ys|
    decreases |xs|
  {
    if |xs| == 0 then list
    else AppendPairs(Append(Append(list, xs[0]), ys[0]), xs[1..], ys[1..])
  }

  /**
   * `lista_ids_inicializadas`: `ID = expr` pairs; the first pair builds
   * the list, and every later `, ID = expr` appends the id and then the
   * expression.
   */
  function InitList(names: seq<string>, exprs: seq<Node>): Node
    requires |names| == |exprs| >= 1
  {
    AppendPairs(Branch("lista_ids_inicializadas", [Id(names[0]), exprs[0]]),
                Ids(names[1..]), exprs[1..])
  }

  /** `lista_parametros`: `tipo_dato ID` pairs, built like `InitList`. */
  function ParamList(types: seq<Node>, names: seq<string>): Node
    requires |types| == |names| >= 1
  {
    AppendPairs(Branch("lista_parametros", [types[0], Id(names[0])]),
                types[1..], Ids(names[1..]))
  }

  // ---------------------------------------------------------------------
  // Program structure

  function Programa(classes: Option<Node>, main: Node): Node {
    match classes
    case Some(c) => Branch("programa", [c, main])
    case None => Branch("programa", [main])
  }

  /** `[modificador_acceso] CLASE ID { miembros_clase }`, named by its leaf. */
  function ClassDecl(modifier: Option<Node>, name: string, members: Node): Node {
    match modifier
    case Some(m) => Node("declaracion_clase", [m, members], Some(name), 0, 0)
    case None => Node("declaracion_clase", [members], Some(name), 0, 0)
  }

  /** `modificador_acceso declaracion` (both children are nodes). */
  function MemberWithModifier(modifier: Node, declaration: Node): Node {
    Branch("miembro_clase", [modifier, declaration])
  }

  /** `tipo_dato lista_ids ~` as a class member. */
  function MemberFields(tipo: Node, ids: Node): Node {
    Branch("miembro_clase", [tipo, ids])
  }

  /** `tipo_dato ID = expresion ~` as a class member. */
  function MemberInit(tipo: Node, name: string, expr: Node): Node {
    Branch("miembro_clase", [tipo, Id(name), expr])
  }

  function Modifier(word: string): Node {
    Node("modificador_acceso", [], Some(word), 0, 0)
  }

  function Principal(block: Node): Node {
    Branch("principal", [block])
  }

  function Bloque(statements: Node): Node {
    Branch("bloque", [statements])
  }

  function Sentencia(statement: Node): Node {
    Branch("sentencia", [statement])
  }

  /** `tipo_dato`: a plain or `[]` type, positioned at its token. */
  function TipoDato(name: string, isArray: bool, line: nat, column: nat): Node {
    LeafAt(if isArray then "tipo_array" else "tipo_dato", name, line, column)
  }

  // ---------------------------------------------------------------------
  // Declarations and assignments; `line`/`column` are what the action
  // reads for its first symbol.  The declaration rules start with the
  // nonterminal `tipo_dato`, and the parse runs without position
  // tracking, so for `DeclList`, `DeclInit` and `DeclArray` the parser
  // passes line 0 and column 0; the builders keep the parameters so the
  // lemmas about them hold at every position, 0 included.

  /** `tipo_dato lista_ids ~` (and `tipo_dato lista_ids_inicializadas ~`). */
  function DeclList(tipo: Node, list: Node, line: nat, column: nat): Node {
    Node("declaracion_variable", [tipo, list], None, line, column)
  }

  /** `tipo_dato ID = expresion ~`. */
  function DeclInit(tipo: Node, name: Name, expr: Node, line: nat, column: nat): Node {
    Node("declaracion_variable", [tipo, IdOf(name), expr], None, line, column)
  }

  /** `tipo_dato ID = array_literal ~`. */
  function DeclArray(tipo: Node, name: Name, literal: Node, line: nat, column: nat): Node {
    Node("declaracion_array", [tipo, IdOf(name), literal], None, line, column)
  }

  /** `ID = expresion ~`. */
  function Assign(target: Name, expr: Node): Node {
    Node("asignacion", [IdOf(target), expr], None, target.line, target.column)
  }

  /** `ID acceso_objeto = expresion ~`: the access hangs below the id. */
  function AssignMember(target: Name, access: Node, expr: Node): Node {
    var id := IdOf(target).(children := [access]);
    Node("asignacion", [id, expr], None, target.line, target.column)
  }

  /** `ID [ expresion ] = expresion ~`. */
  function AssignIndex(target: Name, index: Node, expr: Node): Node {
    var access := Node("acceso_array", [IdOf(target), index], None, target.line, target.column);
    Node("asignacion", [access, expr], None, target.line, target.column)
  }

  /** `ID += expresion ~`: the operator's text is the leaf. */
  function AssignCompound(target: Name, op: string, expr: Node): Node {
    Node("asignacion_compuesta", [IdOf(target), expr], Some(op), target.line, target.column)
  }

  /** `. ID` or `. ID acceso_objeto`, nested to the right. */
  function AccessChain(names: seq<string>): Node
    requires |names| >= 1
    decreases |names|
  {
    if |names| == 1 then Branch("acceso_objeto", [Id(names[0])])
    else Branch("acceso_objeto", [Id(names[0]), AccessChain(names[1..])])
  }

  /** The callee of a call: a bare id, or an id carrying an access chain. */
  function Callee(name: string, access: Option<Node>): Node {
    match access
    case Some(a) => Id(name).(children := [a])
    case None => Id(name)
  }

  /** `ID [acceso_objeto] ( argumentos ) ~`. */
  function FunctionCall(name: string, access: Option<Node>, args: Node): Node {
    Branch("llamada_funcion", [Callee(name, access), args])
  }

  /** `ID [acceso_objeto] ( argumentos )` inside an expression. */
  function MethodCall(name: string, access: Option<Node>, args: Node): Node {
    Branch("llamada_metodo", [Callee(name, access), args])
  }

  /** `argumentos`, `parametros`: the optional list, or no child. */
  function Optional(kind: string, list: Option<Node>): Node {
    match list
    case Some(l) => Branch(kind, [l])
    case None => Branch(kind, [])
  }

  /** `tipo_dato ID ( parametros ) bloque`. */
  function TypedMethod(tipo: Node, name: string, params: Node, body: Node): Node {
    Branch("declaracion_metodo", [tipo, Id(name), params, body])
  }

  /** `ID ( parametros ) bloque`. */
  function UntypedMethod(name: string, params: Node, body: Node): Node {
    Branch("declaracion_metodo", [Id(name), params, body])
  }

  // ---------------------------------------------------------------------
  // Statements

  /** `si ( expresion ) bloque [sino bloque]`, positioned at `si`. */
  function If(cond: Node, body: Node, otherwise: Option<Node>, line: nat, column: nat): Node {
    match otherwise
    case Some(e) => Node("sentencia_if", [cond, body, e], None, line, column)
    case None => Node("sentencia_if", [cond, body], None, line, column)
  }

  function While(cond: Node, body: Node, line: nat, column: nat): Node {
    Node("sentencia_while", [cond, body], None, line, column)
  }

  function DoWhile(body: Node, cond: Node): Node {
    Branch("sentencia_do_while", [body, cond])
  }

  function For(init: Node, cond: Node, update: Node, body: Node): Node {
    Branch("sentencia_for", [init, cond, update, body])
  }

  /** `[tipo_dato] ID = expresion ;`. */
  function ForInit(tipo: Option<Node>, name: string, expr: Node): Node {
    match tipo
    case Some(t) => Branch("asignacion_for", [t, Id(name), expr])
    case None => Branch("asignacion_for", [Id(name), expr])
  }

  /** `ID = expresion` or `ID += expresion`: the operator's text is the leaf. */
  function ForUpdate(name: string, op: string, expr: Node): Node {
    Node("actualizacion_for", [Id(name), expr], Some(op), 0, 0)
  }

  function Switch(subject: Node, cases: Node): Node {
    Branch("sentencia_switch", [subject, cases])
  }

  /** `caso expresion : sentencias [sentencia_break]`. */
  function Case(value: Node, body: Node, brk: Option<Node>): Node {
    match brk
    case Some(b) => Branch("caso_switch", [value, body, b])
    case None => Branch("caso_switch", [value, body])
  }

  function Default(body: Node): Node {
    Branch("caso_default", [body])
  }

  function Return(value: Option<Node>): Node {
    Optional("sentencia_return", value)
  }

  function Break(): Node {
    Branch("sentencia_break", [])
  }

  function Print(expr: Node, line: nat, column: nat): Node {
    Node("sentencia_print", [expr], None, line, column)
  }

  // ---------------------------------------------------------------------
  // Expressions; `op` is the operator token's text.

  /** `expresion_logica AND|OR expresion_relacional`. */
  function Logical(left: Node, op: string, right: Node): Node {
    Node("expresion_logica", [left, right], Some(op), 0, 0)
  }

  /** `NOT expresion_relacional`: one child, the token's text as leaf. */
  function Not(operand: Node): Node {
    Node("expresion_logica", [operand], Some("NOT"), 0, 0)
  }

  /** A comparison, positioned at its operator. */
  function Relational(left: Node, op: string, right: Node, line: nat, column: nat): Node {
    Node("expresion_relacional", [left, right], Some(op), line, column)
  }

  /** `+` or `-`, positioned at its operator. */
  function Arithmetic(left: Node, op: string, right: Node, line: nat, column: nat): Node {
    Node("expresion_aritmetica", [left, right], Some(op), line, column)
  }

  /** `*`, `/` or `%`; no position. */
  function Termino(left: Node, op: string, right: Node): Node {
    Node("termino", [left, right], Some(op), 0, 0)
  }

  /** A number or string literal. */
  function Literal(text: string, line: nat, column: nat): Node {
    LeafAt("factor", text, line, column)
  }

  /** `verdadero` or `falso`. */
  function Boolean(text: string, line: nat, column: nat): Node {
    LeafAt("booleano", text, line, column)
  }

  /** A bare identifier in an expression. */
  function IdFactor(name: Name): Node {
    Node("factor", [IdOf(name)], None, name.line, name.column)
  }

  /** `ID acceso_objeto` in an expression. */
  function MemberFactor(name: Name, access: Node): Node {
    Node("factor", [IdOf(name).(children := [access])], None, name.line, name.column)
  }

  /** `ID [ expresion ]` in an expression. */
  function IndexFactor(name: Name, index: Node): Node {
    Node("acceso_array", [IdOf(name), index], None, name.line, name.column)
  }

  /** A method call used as a factor; its first symbol is a nonterminal, so the parser passes position 0. */
  function CallFactor(call: Node, line: nat, column: nat): Node {
    Node("factor", [call], None, line, column)
  }

  /** `[ lista_expresiones ]` or `[ ]`. */
  function ArrayLiteral(items: Option<Node>): Node {
    Optional("array_literal", items)
  }

  // ---------------------------------------------------------------------
  // What the list actions guarantee

  lemma {:induction false} AppendAllChildren(list: Node, items: seq<Node>)
    ensures AppendAll(list, items) == list.(children := list.children + items)
    decreases |items|
  {
    if |items| > 0 {
      AppendAllChildren(Append(list, items[0]), items[1..]);
      assert list.children + [items[0]] + items[1..] == list.children + items;
    }
  }

  /** A list node holds exactly the reduced items, in source order. */
  lemma ListOfInOrder(kind: string, items: seq<Node>)
    ensures ListOf(kind, items) == Branch(kind, items)
  {
    if |items| > 0 {
      AppendAllChildren(Branch(kind, [items[0]]), items[1..]);
      assert [items[0]] + items[1..] == items;
    }
  }

  /**
   * `lista_ids` holds one `id` node per identifier, in source order, each
   * at its token's position, and the list sits at the first identifier.
   */
  lemma IdListInOrder(names: seq<Name>)
    requires |names| >= 1
    ensures IdList(names).kind == "lista_ids"
    ensures IdList(names).line == names[0].line && IdList(names).column == names[0].column
    ensures |IdList(names).children| == |names|
    ensures forall i :: 0 <= i < |names| ==>
      IdList(names).children[i] == IdAt(names[i].text, names[i].line, names[i].column)
  {
    var start := Node("lista_ids", [IdOf(names[0])], None, names[0].line, names[0].column);
    AppendAllChildren(start, IdsAt(names[1..]));
    assert [IdOf(names[0])] + IdsAt(names[1..]) == IdsAt(names);
  }

  lemma {:induction false} InterleaveAt(xs: seq<Node>, ys: seq<Node>)
    requires |xs| == |ys|
    ensures forall i :: 0 <= i < |xs| ==> Interleave(xs, ys)[2 * i] == xs[i] && Interleave(xs, ys)[2 * i + 1] == ys[i]
    decreases |xs|
  {
    if |xs| > 0 {
      InterleaveAt(xs[1..], ys[1..]);
      forall i | 1 <= i < |xs|
        ensures Interleave(xs, ys)[2 * i] == xs[i] && Interleave(xs, ys)[2 * i + 1] == ys[i]
      {
        assert Interleave(xs, ys)[2 * i] == Interleave(xs[1..], ys[1..])[2 * (i - 1)];
        assert Interleave(xs, ys)[2 * i + 1] == Interleave(xs[1..], ys[1..])[2 * (i - 1) + 1];
      }
    }
  }

  lemma {:induction false} AppendPairsChildren(list: Node, xs: seq<Node>, ys: seq<Node>)
    requires |xs| == |ys|
    ensures AppendPairs(list, xs, ys) == list.(children := list.children + Interleave(xs, ys))
    decreases |xs|
  {
    if |xs| > 0 {
      AppendPairsChildren(Append(Append(list, xs[0]), ys[0]), xs[1..], ys[1..]);
      assert list.children + [xs[0]] + [ys[0]] + Interleave(xs[1..], ys[1..])
          == list.children + Interleave(xs, ys);
    }
  }

  /**
   * `lista_ids_inicializadas` alternates id and expression: pair `i` sits
   * at positions `2i` and `2i+1`, in source order.
   */
  lemma InitListPairs(names: seq<string>, exprs: seq<Node>)
    requires |names| == |exprs| >= 1
    ensures InitList(names, exprs).kind == "lista_ids_inicializadas"
    ensures |InitList(names, exprs).children| == 2 * |names|
    ensures forall i :: 0 <= i < |names| ==>
      InitList(names, exprs).children[2 * i] == Id(names[i]) &&
      InitList(names, exprs).children[2 * i + 1] == exprs[i]
  {
    var start := Branch("lista_ids_inicializadas", [Id(names[0]), exprs[0]]);
    AppendPairsChildren(start, Ids(names[1..]), exprs[1..]);
    assert [Id(names[0]), exprs[0]] + Interleave(Ids(names[1..]), exprs[1..]) == Interleave(Ids(names), exprs);
    InterleaveAt(Ids(names), exprs);
  }

  /** `lista_parametros` alternates type and id, pair `i` at `2i` and `2i+1`. */
  lemma ParamListPairs(types: seq<Node>, names: seq<string>)
    requires |types| == |names| >= 1
    ensures ParamList(types, names).kind == "lista_parametros"
    ensures |ParamList(types, names).children| == 2 * |names|
    ensures forall i :: 0 <= i < |names| ==>
      ParamList(types, names).children[2 * i] == types[i] &&
      ParamList(types, names).children[2 * i + 1] == Id(names[i])
  {
    var start := Branch("lista_parametros", [types[0], Id(names[0])]);
    AppendPairsChildren(start, types[1..], Ids(names[1..]));
    assert [types[0], Id(names[0])] + Interleave(types[1..], Ids(names[1..])) == Interleave(types, Ids(names));
    InterleaveAt(types, Ids(names));
  }

  /** The names an access chain spells, read back from the first child down the second. */
  function AccessNames(n: Node): seq<string>
    decreases n
  {
    if |n.children| == 0 then []
    else
      var head := match n.children[0].leaf case Some(t) => [t] case None => [];
      if |n.children| >= 2 then head + AccessNames(n.children[1]) else head
  }

  /** `acceso_objeto` nests the member names left to right. */
  lemma {:induction false} AccessChainNames(names: seq<string>)
    requires |names| >= 1
    ensures AccessNames(AccessChain(names)) == names
    decreases |names|
  {
    if |names| > 1 {
      AccessChainNames(names[1..]);
      assert [names[0]] + names[1..] == names;
    }
  }

  /** An `if` node has its condition and block, plus the `sino` block iff there is one. */
  lemma IfShape(cond: Node, body: Node, otherwise: Option<Node>, line: nat, column: nat)
    ensures var n := If(cond, body, otherwise, line, column);
      n.kind == "sentencia_if" && n.children[..2] == [cond, body] &&
      (|n.children| == 2 <==> otherwise.None?) &&
      (|n.children| == 3 <==> otherwise.Some?) &&
      (otherwise.Some? ==> n.children[2] == otherwise.value)
  {
  }
}

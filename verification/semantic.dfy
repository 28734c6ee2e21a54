/**
 * The semantic analyser: class pre-registration, the recursive analysis
 * that turns a syntax tree into a semantic tree while threading the
 * symbol table, error collection, and the top-level `analyze` that
 * resets the analyser's state.
 *
 * The source mutates symbols and nodes in place; here every analysis
 * step returns the semantic node it built together with the symbol table
 * after it.  An error is attached to the node the source attaches it to
 * and takes that node's position when collected.
 */
module Semantic {
  import opened Wrappers
  import opened Text
  import opened Ast
  import opened Symbols
  import opened Typing

  // ---------------------------------------------------------------------
  // Classes

  datatype Param = Param(tipo: Option<string>, name: Option<string>)

  datatype MethodInfo = MethodInfo(returnType: Option<string>, parameters: seq<Param>)

  /** A registered class: member types and methods, keyed by the leaves naming them. */
  datatype ClassInfo = ClassInfo(members: map<Option<string>, Option<string>>, methods: map<Option<string>, MethodInfo>)

  /** `user_defined_types`, keyed by class name. */
  type Classes = map<string, ClassInfo>

  const NoMembers := ClassInfo(map[], map[])

  /**
   * `_collect_class_declarations`: a named `declaracion_clase` is
   * registered afresh (its nested nodes are not searched further); any
   * other node is searched child by child.
   */
  function CollectClasses(n: Node, cls: Classes): Classes
    decreases n, 1, 0
  {
    if n.kind == "declaracion_clase" && Known(n.leaf) then cls[n.leaf.value := ClassMembers(n)]
    else CollectFrom(n, 0, cls)
  }

  function CollectFrom(n: Node, i: nat, cls: Classes): Classes
    requires i <= |n.children|
    decreases n, 0, |n.children| - i
  {
    if i == |n.children| then cls else CollectFrom(n, i + 1, CollectClasses(n.children[i], cls))
  }

  /** `_process_class_members`: only a first child of kind `miembros_clase` is read. */
  function ClassMembers(n: Node): ClassInfo {
    if |n.children| < 1 || n.children[0].kind != "miembros_clase" then NoMembers
    else MembersFrom(n.children[0].children, NoMembers)
  }

  /** Each `miembro_clase` with two children contributes its second child, a declaration. */
  function MembersFrom(ms: seq<Node>, info: ClassInfo): ClassInfo
    decreases |ms|
  {
    if |ms| == 0 then info
    else
      var m := ms[0];
      var info' :=
        if m.kind != "miembro_clase" || |m.children| < 2 then info
        else if m.children[1].kind == "declaracion_variable" then ClassVariable(info, m.children[1])
        else if m.children[1].kind == "declaracion_metodo" then ClassMethod(info, m.children[1])
        else info;
      MembersFrom(ms[1..], info')
  }

  /** `_process_class_variable`: each declared id gets the leaf of the type node. */
  function ClassVariable(info: ClassInfo, d: Node): ClassInfo {
    if |d.children| < 2 then info
    else
      var tipo := d.children[0].leaf;
      if d.children[1].kind == "lista_ids" then Fields(info, d.children[1].children, tipo)
      else if d.children[1].kind == "id" then info.(members := info.members[d.children[1].leaf := tipo])
      else info
  }

  function Fields(info: ClassInfo, ids: seq<Node>, tipo: Option<string>): ClassInfo
    decreases |ids|
  {
    if |ids| == 0 then info
    else
      var info' := if ids[0].kind == "id" then info.(members := info.members[ids[0].leaf := tipo]) else info;
      Fields(info', ids[1..], tipo)
  }

  /**
   * `_process_class_method`: the first two children give the return type
   * and the name; parameters are read from a third child of kind
   * `parametros`.
   */
  function ClassMethod(info: ClassInfo, d: Node): ClassInfo {
    if |d.children| < 2 then info
    else
      var params := if |d.children| >= 3 && d.children[2].kind == "parametros" then Params(d.children[2].children) else [];
      info.(methods := info.methods[d.children[1].leaf := MethodInfo(d.children[0].leaf, params)])
  }

  /** One parameter per `lista_parametros` child: its first two children. */
  function Params(ps: seq<Node>): seq<Param>
    decreases |ps|
  {
    if |ps| == 0 then []
    else
      var p := ps[0];
      (if p.kind == "lista_parametros" && |p.children| >= 2 then [Param(p.children[0].leaf, p.children[1].leaf)] else [])
      + Params(ps[1..])
  }

  // ---------------------------------------------------------------------
  // Semantic nodes and errors

  /** The errors of the analysis, one constructor per message of the source. */
  datatype Message =
    | UndefinedType(tipo: Option<string>)
    | AlreadyDeclared(name: Ident)
    | Undeclared(name: Ident)
    | IncompatibleInit(source: string, target: string)
    | IncompatibleAssign(found: Ty, target: string)
    | IncompatibleMember(source: string, member: Option<string>, memberType: Ty)
    | NoSuchMember(className: string, member: Option<string>)
    | NotAClass(ty: string)
    | NotAnObject(ty: string)
    | OperationMismatch(op: Option<string>, left: Ty, right: Ty)
    | ComparisonMismatch(op: Option<string>, left: Ty, right: Ty)
    | NeedsNumbers(op: Option<string>)
    | NeedsBooleans(op: Option<string>)
    | NegationMismatch(operand: Ty)
    | NotMismatch(operand: Ty)
    | ConditionNotBoolean(structure: string, ty: string)
    | UndeclaredFunction(name: Option<string>)

  datatype SemanticError = SemanticError(message: Message, line: nat, column: nat)

  /** `SemanticNode`: its own errors are kept as messages; they take the node's position. */
  datatype SNode = SNode(kind: string, value: Option<string>, dataType: Ty, children: seq<SNode>,
                         line: nat, column: nat, errors: seq<Message>)

  /** A fresh semantic node, as `SemanticNode(type, value, line=, column=)` builds it. */
  function Fresh(kind: string, value: Option<string>, line: nat, column: nat): SNode {
    SNode(kind, value, None, [], line, column, [])
  }

  /** The result of analysing one node: its semantic node and the table after it. */
  datatype Out = Out(node: SNode, table: Table)

  /** The result of analysing a run of siblings. */
  datatype Many = Many(nodes: seq<SNode>, table: Table)

  /**
   * The trees the analysis reads without raising: a `declaracion_variable`
   * has its type child, and an `asignacion` has its target and, when the
   * target is an `id`, its expression.  The parser builds no other shape.
   */
  predicate WellShaped(n: Node)
    decreases n
  {
    && (n.kind == "declaracion_variable" ==> |n.children| >= 1)
    && (n.kind == "asignacion" ==> |n.children| >= 1 && (n.children[0].kind == "id" ==> |n.children| >= 2))
    && forall i :: 0 <= i < |n.children| ==> WellShaped(n.children[i])
  }

  /** What `float(value)` accepts among strings of digits and dots. */
  predicate IsNumeral(v: string) {
    && (forall i :: 0 <= i < |v| ==> IsDigit(v[i]) || v[i] == '.')
    && (exists i :: 0 <= i < |v| && IsDigit(v[i]))
    && (forall i, j :: 0 <= i < j < |v| && v[i] == '.' ==> v[j] != '.')
  }

  /**
   * `_infer_data_type` for a factor's leaf: quoted text, a boolean word in
   * any case, a number (`flotante` when it has a dot), or else the type of
   * a visible symbol of that name, without marking it used.
   */
  function InferLiteral(v: string, t: Table): Ty {
    if StartsWith(v, "\"") || StartsWith(v, "'") then Some(Cadena)
    else if Lower(v) == "verdadero" || Lower(v) == "falso" then Some(Booleano)
    else if IsNumeral(v) then Some(if '.' in v then Flotante else Entero)
    else match Lookup(t, Some(v))
      case Some(sym) => Some(sym.declaredType)
      case None => None
  }

  /**
   * The second inference a declaration applies to a `factor` initialiser:
   * all digits, digits and a dot, quoted text, or a lower-case boolean word.
   */
  function Reinfer(e: SNode): SNode {
    match e.value
    case None => e
    case Some(v) =>
      if e.kind != "factor" then e
      else if |v| > 0 && forall i :: 0 <= i < |v| ==> IsDigit(v[i]) then e.(dataType := Some(Entero))
      else if '.' in v && forall i :: 0 <= i < |v| ==> IsDigit(v[i]) || v[i] == '.' then e.(dataType := Some(Flotante))
      else if StartsWith(v, "\"") || StartsWith(v, "'") then e.(dataType := Some(Cadena))
      else if v == "verdadero" || v == "falso" then e.(dataType := Some(Booleano))
      else e
  }

  /** A declared type is valid when it is basic or a registered class. */
  predicate ValidType(cls: Classes, tipo: Option<string>) {
    tipo.Some? && (tipo.value in BasicTypes || tipo.value in cls)
  }

  /** The three families `_analyze_binary_operation` distinguishes. */
  datatype Family = ArithmeticFamily | RelationalFamily | LogicalFamily

  function FamilyKind(f: Family): string {
    match f
    case ArithmeticFamily => "expresion_aritmetica"
    case RelationalFamily => "expresion_relacional"
    case LogicalFamily => "expresion_logica"
  }

  /**
   * `_analyze_binary_operation`: the operator is the value, both operands
   * are children, and the family's check sets the type and the errors.
   */
  function Binary(n: Node, f: Family, l: SNode, r: SNode): SNode {
    var node := SNode(FamilyKind(f), n.leaf, None, [l, r], n.line, n.column, []);
    match f
    case ArithmeticFamily =>
      var c := ArithmeticCheck(n.leaf, l.dataType, r.dataType);
      node.(dataType := c.ty, errors := if c.ok then [] else [OperationMismatch(n.leaf, l.dataType, r.dataType)])
    case RelationalFamily =>
      node.(dataType := Some(Booleano), errors :=
        if RelationalOk(n.leaf, l.dataType, r.dataType) then []
        else if n.leaf == Some("==") || n.leaf == Some("!=") then [ComparisonMismatch(n.leaf, l.dataType, r.dataType)]
        else [NeedsNumbers(n.leaf)])
    case LogicalFamily =>
      node.(dataType := Some(Booleano), errors :=
        if LogicalOk(l.dataType, r.dataType) then [] else [NeedsBooleans(n.leaf)])
  }

  /** A condition node after `_check_boolean_condition` has retyped it. */
  function Conditioned(c: SNode): SNode {
    c.(dataType := ConditionType(c.kind, c.dataType))
  }

  /** The error `_check_boolean_condition` attaches to the statement, if any. */
  function ConditionErrors(structure: string, c: SNode): seq<Message> {
    if ConditionOk(c.dataType) then [] else [ConditionNotBoolean(structure, c.dataType.value)]
  }

  // ---------------------------------------------------------------------
  // The analysis

  /**
   * Which reading of `_analyze_arithmetic_expression` to follow.  As
   * written, a two-child `-` node is taken for a negation of its second
   * child; but every `-` node the parser builds is a binary subtraction
   * with two children, so `Intended` checks it like the other operators.
   */
  datatype Mode = AsWritten | Intended

  /**
   * `_analyze_node`.  Whatever the node, the table afterwards has the same
   * current scope and still holds every symbol it held, with flags only
   * ever set.
   */
  function Analyze(mode: Mode, cls: Classes, n: Node, t: Table): (r: Out)
    requires WellShaped(n)
    ensures r.table.current == t.current && Extends(t, r.table)
    ensures r.node.kind == n.kind && r.node.line == n.line && r.node.column == n.column
    decreases n, 3, 0
  {
    var base := Fresh(n.kind, n.leaf, n.line, n.column);
    if n.kind == "programa" then
      var m := Children(mode, cls, n, 0, |n.children|, t);
      Out(base.(children := m.nodes), m.table)
    else if n.kind == "principal" then
      var inner := EnterScope(t, "principal");
      var m := Children(mode, cls, n, 0, |n.children|, inner);
      PrincipalIsSimple();
      LastDotOfChild(t.current, "principal");
      Out(base.(children := m.nodes), ExitScope(m.table))
    else if n.kind == "id" then
      match Lookup(t, n.leaf)
      case None => Out(base, t)
      case Some(sym) => Out(base.(dataType := Some(sym.declaredType)), Mark(t, n.leaf, true, false))
    else if n.kind == "acceso_objeto" then
      AnalyzeMemberAccess(mode, cls, n, t)
    else if n.kind == "factor" && |n.children| == 1 && n.children[0].kind == "id" then
      var id := Analyze(mode, cls, n.children[0], t);
      Out(base.(children := [id.node], dataType := if Known(id.node.dataType) then id.node.dataType else None), id.table)
    else if n.kind == "factor" && n.leaf.Some? then
      Out(base.(dataType := InferLiteral(n.leaf.value, t)), t)
    else if n.kind == "llamada_metodo" then
      if |n.children| >= 1 then
        var o := Analyze(mode, cls, n.children[0], t);
        Out(base.(children := [o.node]), o.table)
      else Out(base, t)
    else if n.kind == "booleano" then
      Out(base.(dataType := Some(Booleano)), t)
    else if n.kind == "declaracion_variable" then
      AnalyzeDeclaration(mode, cls, n, t)
    else if n.kind == "asignacion" then
      AnalyzeAssignment(mode, cls, n, t)
    else if n.kind == "expresion_aritmetica" then
      AnalyzeArithmetic(mode, cls, n, t)
    else if n.kind == "expresion_relacional" then
      AnalyzeRelational(mode, cls, n, t)
    else if n.kind == "expresion_logica" then
      AnalyzeLogical(mode, cls, n, t)
    else if n.kind == "sentencia_if" then
      AnalyzeIf(mode, cls, n, t)
    else if n.kind == "sentencia_while" then
      AnalyzeWhile(mode, cls, n, t)
    else if n.kind == "sentencia_for" then
      AnalyzeFor(mode, cls, n, t)
    else if n.kind == "llamada_funcion" then
      AnalyzeFunctionCall(mode, cls, n, t)
    else if n.kind == "sentencia_print" then
      var m := Children(mode, cls, n, 0, |n.children|, t);
      Out(Fresh("sentencia_print", None, n.line, n.column).(children := m.nodes), m.table)
    else
      // `bloque`, `sentencias`, `sentencia` and every other kind: the children in order
      var m := Children(mode, cls, n, 0, |n.children|, t);
      Out(base.(children := m.nodes), m.table)
  }

  lemma PrincipalIsSimple()
    ensures !HasDot("principal")
  {
    var p := "principal";
    assert p[0] != '.' && p[1] != '.' && p[2] != '.' && p[3] != '.' && p[4] != '.';
    assert p[5] != '.' && p[6] != '.' && p[7] != '.' && p[8] != '.';
  }

  /** `_process_children`: the children `from .. to`, left to right, one semantic node each. */
  function Children(mode: Mode, cls: Classes, n: Node, from: nat, to: nat, t: Table): (r: Many)
    requires WellShaped(n) && from <= to <= |n.children|
    ensures |r.nodes| == to - from
    ensures r.table.current == t.current && Extends(t, r.table)
    ensures forall i :: 0 <= i < |r.nodes| ==> r.nodes[i].kind == n.children[from + i].kind
    decreases n, 1, to - from
  {
    if from == to then Many([], t)
    else
      var h := Analyze(mode, cls, n.children[from], t);
      var rest := Children(mode, cls, n, from + 1, to, h.table);
      Many([h.node] + rest.nodes, rest.table)
  }

  /**
   * The `acceso_objeto` branch: the object's member type when the object
   * is of a registered class, an error for a missing member or for a
   * known type that is not a class.
   */
  function AnalyzeMemberAccess(mode: Mode, cls: Classes, n: Node, t: Table): (r: Out)
    requires WellShaped(n) && n.kind == "acceso_objeto"
    ensures r.table.current == t.current && Extends(t, r.table)
    ensures r.node.kind == n.kind && r.node.line == n.line && r.node.column == n.column
    decreases n, 2, 0
  {
    var base := Fresh(n.kind, n.leaf, n.line, n.column);
    if |n.children| < 1 then Out(base, t)
    else
      var id := Analyze(mode, cls, n.children[0], t);
      var ot := id.node.dataType;
      var node := base.(children := [id.node]);
      if ot.Some? && ot.value in cls && |n.children| >= 2 then
        var member := n.children[1].leaf;
        if !Known(member) then Out(node, id.table)
        else if member in cls[ot.value].members then Out(node.(dataType := cls[ot.value].members[member]), id.table)
        else Out(node.(errors := [NoSuchMember(ot.value, member)]), id.table)
      else if Known(ot) then Out(node.(errors := [NotAnObject(ot.value)]), id.table)
      else Out(node, id.table)
  }

  /**
   * `_analyze_declaration`.  An invalid type yields a bare declaration
   * node with the error.  Otherwise the `tipo_dato` child comes first,
   * then either a `lista_ids` of `variable` nodes, one per declared name,
   * or the initialised `variable` and its expression.
   */
  function AnalyzeDeclaration(mode: Mode, cls: Classes, n: Node, t: Table): (r: Out)
    requires WellShaped(n) && n.kind == "declaracion_variable"
    ensures r.table.current == t.current && Extends(t, r.table)
    ensures r.node.kind == n.kind && r.node.line == n.line && r.node.column == n.column
    decreases n, 2, 0
  {
    var node := Fresh("declaracion_variable", None, n.line, n.column);
    var tipoNode := n.children[0];
    if !ValidType(cls, tipoNode.leaf) then
      Out(node.(errors := [UndefinedType(tipoNode.leaf)]), t)
    else
      var tipo := tipoNode.leaf.value;
      var tipoS := Fresh("tipo_dato", tipoNode.leaf, tipoNode.line, tipoNode.column);
      if |n.children| >= 2 && n.children[1].kind == "lista_ids" then
        var list := n.children[1];
        var d := DeclareIds(list.children, tipo, t);
        var ids := Fresh("lista_ids", None, list.line, list.column).(children := d.nodes);
        Out(node.(children := [tipoS, ids]), d.table)
      else if |n.children| >= 3 && n.children[1].kind == "id" then
        var id := n.children[1];
        var v := Fresh("variable", id.leaf, id.line, id.column).(dataType := Some(tipo));
        var added := AddSymbol(t, id.leaf, tipo, id.line, id.column);
        if !added.ok then
          Out(node.(children := [tipoS, v.(errors := [AlreadyDeclared(id.leaf)])]), t)
        else
          var t1 := Mark(added.table, id.leaf, false, true);
          var e := Analyze(mode, cls, n.children[2], t1);
          var expr := Reinfer(e.node);
          var errs := if Assignable(Some(tipo), expr.dataType) then [] else [IncompatibleInit(expr.dataType.value, tipo)];
          Out(node.(children := [tipoS, v.(errors := errs), expr]), e.table)
      else Out(node.(children := [tipoS]), t)
  }

  /**
   * The `lista_ids` loop of `_analyze_declaration`: a `variable` node per
   * child, in order, each declared in the current scope or marked with
   * the redeclaration error.
   */
  function DeclareIds(ids: seq<Node>, tipo: string, t: Table): (r: Many)
    ensures |r.nodes| == |ids|
    ensures r.table.current == t.current && Extends(t, r.table)
    decreases |ids|
  {
    if |ids| == 0 then Many([], t)
    else
      var id := ids[0];
      var added := AddSymbol(t, id.leaf, tipo, id.line, id.column);
      var v := Fresh("variable", id.leaf, id.line, id.column).(dataType := Some(tipo),
                     errors := if added.ok then [] else [AlreadyDeclared(id.leaf)]);
      var rest := DeclareIds(ids[1..], tipo, added.table);
      Many([v] + rest.nodes, rest.table)
  }

  /**
   * `_analyze_assignment`.  A target that is not an `id` gives a bare
   * node; an undeclared target is an error on its `variable` node; a
   * declared one is marked initialised and used before the expression is
   * analysed.  A member target (`id` carrying an `acceso_objeto`) is
   * checked against the class's member type.
   */
  function AnalyzeAssignment(mode: Mode, cls: Classes, n: Node, t: Table): (r: Out)
    requires WellShaped(n) && n.kind == "asignacion"
    ensures r.table.current == t.current && Extends(t, r.table)
    ensures r.node.kind == n.kind && r.node.line == n.line && r.node.column == n.column
    decreases n, 2, 0
  {
    var node := Fresh("asignacion", None, n.line, n.column);
    var id := n.children[0];
    if id.kind != "id" then Out(node, t)
    else
      var v := Fresh("variable", id.leaf, id.line, id.column);
      match Lookup(t, id.leaf)
      case None => Out(node.(children := [v.(errors := [Undeclared(id.leaf)])]), t)
      case Some(sym) =>
        var ty := sym.declaredType;
        var v := v.(dataType := Some(ty));
        var t1 := Mark(t, id.leaf, true, true);
        if |id.children| > 0 && id.children[0].kind == "acceso_objeto" then
          var access := id.children[0];
          var member := if |access.children| > 0 then access.children[0].leaf else None;
          if ty in cls && Known(member) then
            if member in cls[ty].members then
              var mt := cls[ty].members[member];
              var e := Analyze(mode, cls, n.children[1], t1);
              var errs := if Assignable(mt, e.node.dataType) then [] else [IncompatibleMember(e.node.dataType.value, member, mt)];
              Out(node.(children := [v, e.node], errors := errs), e.table)
            else Out(node.(children := [v], errors := [NoSuchMember(ty, member)]), t1)
          else Out(node.(children := [v], errors := [NotAClass(ty)]), t1)
        else
          var e := Analyze(mode, cls, n.children[1], t1);
          var ok := if ty in cls then e.node.dataType == Some(ty) else Assignable(Some(ty), e.node.dataType);
          Out(node.(children := [v, e.node], errors := if ok then [] else [IncompatibleAssign(e.node.dataType, ty)]), e.table)
  }

  /**
   * `_analyze_arithmetic_expression`: one child passes its type through;
   * two children under `-` are a negation of the SECOND child only; two
   * or more otherwise are a binary operation on the first two.
   */
  function AnalyzeArithmetic(mode: Mode, cls: Classes, n: Node, t: Table): (r: Out)
    requires WellShaped(n) && n.kind == "expresion_aritmetica"
    ensures r.table.current == t.current && Extends(t, r.table)
    ensures r.node.kind == n.kind && r.node.line == n.line && r.node.column == n.column
    decreases n, 2, 0
  {
    if |n.children| == 1 then
      var c := Analyze(mode, cls, n.children[0], t);
      Out(Fresh("expresion_aritmetica", None, n.line, n.column).(children := [c.node], dataType := c.node.dataType), c.table)
    else if mode == AsWritten && |n.children| == 2 && n.leaf == Some("-") then
      var o := Analyze(mode, cls, n.children[1], t);
      var ok := NegationOk(o.node.dataType);
      Out(Fresh("expresion_aritmetica", n.leaf, n.line, n.column).(children := [o.node],
            dataType := if ok then o.node.dataType else None,
            errors := if ok then [] else [NegationMismatch(o.node.dataType)]), o.table)
    else if |n.children| >= 2 then
      var l := Analyze(mode, cls, n.children[0], t);
      var rr := Analyze(mode, cls, n.children[1], l.table);
      Out(Binary(n, ArithmeticFamily, l.node, rr.node), rr.table)
    else Out(Fresh("expresion_aritmetica", None, n.line, n.column), t)
  }

  /** `_analyze_relational_expression`: one child passes through, two or more compare. */
  function AnalyzeRelational(mode: Mode, cls: Classes, n: Node, t: Table): (r: Out)
    requires WellShaped(n) && n.kind == "expresion_relacional"
    ensures r.table.current == t.current && Extends(t, r.table)
    ensures r.node.kind == n.kind && r.node.line == n.line && r.node.column == n.column
    decreases n, 2, 0
  {
    if |n.children| == 1 then
      var c := Analyze(mode, cls, n.children[0], t);
      Out(Fresh("expresion_relacional", None, n.line, n.column).(children := [c.node], dataType := c.node.dataType), c.table)
    else if |n.children| >= 2 then
      var l := Analyze(mode, cls, n.children[0], t);
      var rr := Analyze(mode, cls, n.children[1], l.table);
      Out(Binary(n, RelationalFamily, l.node, rr.node), rr.table)
    else Out(Fresh("expresion_relacional", None, n.line, n.column), t)
  }

  /**
   * `_analyze_logical_expression`: one child passes through (forced to
   * `booleano` when it is relational) — the branch a `NOT` node, which
   * has one child, takes; `NOT` with two or more children checks the
   * first; otherwise a binary AND/OR.
   */
  function AnalyzeLogical(mode: Mode, cls: Classes, n: Node, t: Table): (r: Out)
    requires WellShaped(n) && n.kind == "expresion_logica"
    ensures r.table.current == t.current && Extends(t, r.table)
    ensures r.node.kind == n.kind && r.node.line == n.line && r.node.column == n.column
    decreases n, 2, 0
  {
    if |n.children| == 1 then
      var c := Analyze(mode, cls, n.children[0], t);
      var ty := if c.node.kind == "expresion_relacional" then Some(Booleano) else c.node.dataType;
      Out(Fresh("expresion_logica", None, n.line, n.column).(children := [c.node], dataType := ty), c.table)
    else if n.leaf == Some("NOT") && |n.children| >= 1 then
      var o := Analyze(mode, cls, n.children[0], t);
      var ok := o.node.dataType == Some(Booleano);
      Out(Fresh("expresion_logica", n.leaf, n.line, n.column).(children := [o.node],
            dataType := if ok then Some(Booleano) else None,
            errors := if ok then [] else [NotMismatch(o.node.dataType)]), o.table)
    else if |n.children| >= 2 then
      var l := Analyze(mode, cls, n.children[0], t);
      var rr := Analyze(mode, cls, n.children[1], l.table);
      Out(Binary(n, LogicalFamily, l.node, rr.node), rr.table)
    else Out(Fresh("expresion_logica", None, n.line, n.column), t)
  }

  /** `_analyze_if_statement`: the checked condition, then every later child. */
  function AnalyzeIf(mode: Mode, cls: Classes, n: Node, t: Table): (r: Out)
    requires WellShaped(n) && n.kind == "sentencia_if"
    ensures r.table.current == t.current && Extends(t, r.table)
    ensures r.node.kind == n.kind && r.node.line == n.line && r.node.column == n.column
    decreases n, 2, 0
  {
    var node := Fresh("sentencia_if", None, n.line, n.column);
    if |n.children| == 0 then Out(node, t)
    else
      var c := Analyze(mode, cls, n.children[0], t);
      var cond := Conditioned(c.node);
      var rest := Children(mode, cls, n, 1, |n.children|, c.table);
      Out(node.(children := [cond] + rest.nodes, errors := ConditionErrors("if", cond)), rest.table)
  }

  /** `_analyze_while_statement`: the checked condition and the body, the second child. */
  function AnalyzeWhile(mode: Mode, cls: Classes, n: Node, t: Table): (r: Out)
    requires WellShaped(n) && n.kind == "sentencia_while"
    ensures r.table.current == t.current && Extends(t, r.table)
    ensures r.node.kind == n.kind && r.node.line == n.line && r.node.column == n.column
    decreases n, 2, 0
  {
    var node := Fresh("sentencia_while", None, n.line, n.column);
    if |n.children| == 0 then Out(node, t)
    else
      var c := Analyze(mode, cls, n.children[0], t);
      var cond := Conditioned(c.node);
      var errs := ConditionErrors("while", cond);
      if |n.children| == 1 then Out(node.(children := [cond], errors := errs), c.table)
      else
        var b := Analyze(mode, cls, n.children[1], c.table);
        Out(node.(children := [cond, b.node], errors := errs), b.table)
  }

  /** `_analyze_for_statement`: the first four children, the second one checked as the condition. */
  function AnalyzeFor(mode: Mode, cls: Classes, n: Node, t: Table): (r: Out)
    requires WellShaped(n) && n.kind == "sentencia_for"
    ensures r.table.current == t.current && Extends(t, r.table)
    ensures r.node.kind == n.kind && r.node.line == n.line && r.node.column == n.column
    decreases n, 2, 0
  {
    var node := Fresh("sentencia_for", None, n.line, n.column);
    var m := Children(mode, cls, n, 0, if |n.children| < 4 then |n.children| else 4, t);
    if |m.nodes| < 2 then Out(node.(children := m.nodes), m.table)
    else
      var cond := Conditioned(m.nodes[1]);
      Out(node.(children := m.nodes[1 := cond], errors := ConditionErrors("for", cond)), m.table)
  }

  /**
   * `_analyze_function_call`: the callee is looked up, without being
   * marked used, and its `id` node gets no type; the call takes the
   * symbol's type or the undeclared-function error; the arguments are
   * analysed when present.
   */
  function AnalyzeFunctionCall(mode: Mode, cls: Classes, n: Node, t: Table): (r: Out)
    requires WellShaped(n) && n.kind == "llamada_funcion"
    ensures r.table.current == t.current && Extends(t, r.table)
    ensures r.node.kind == n.kind && r.node.line == n.line && r.node.column == n.column
    decreases n, 2, 0
  {
    var node := Fresh("llamada_funcion", None, n.line, n.column);
    if |n.children| == 0 || n.children[0].kind != "id" then Out(node, t)
    else
      var f := n.children[0];
      var callee := Fresh("id", f.leaf, f.line, f.column);
      var sym := Lookup(t, f.leaf);
      var node := node.(dataType := if sym.Some? then Some(sym.value.declaredType) else None,
                        errors := if sym.None? then [UndeclaredFunction(f.leaf)] else []);
      if |n.children| >= 2 then
        var a := Analyze(mode, cls, n.children[1], t);
        Out(node.(children := [callee, a.node]), a.table)
      else Out(node.(children := [callee]), t)
  }

  // ---------------------------------------------------------------------
  // Errors and the top level

  /** A node's own errors, at the node's position. */
  function Placed(ms: seq<Message>, line: nat, column: nat): (r: seq<SemanticError>)
    ensures |r| == |ms|
    ensures forall i :: 0 <= i < |ms| ==> r[i] == SemanticError(ms[i], line, column)
  {
    if |ms| == 0 then [] else [SemanticError(ms[0], line, column)] + Placed(ms[1..], line, column)
  }

  /** `collect_errors`: a node's own errors, then each child's, in order. */
  function CollectErrors(n: SNode): seq<SemanticError>
    decreases n, 1, 0
  {
    Placed(n.errors, n.line, n.column) + ErrorsFrom(n, 0)
  }

  function ErrorsFrom(n: SNode, i: nat): seq<SemanticError>
    requires i <= |n.children|
    decreases n, 0, |n.children| - i
  {
    if i == |n.children| then [] else CollectErrors(n.children[i]) + ErrorsFrom(n, i + 1)
  }

  /** The analyser's state between calls of `analyze`. */
  datatype Analyzer = Analyzer(
    table: Table,
    errors: seq<SemanticError>,
    warnings: map<(string, Ident), Warning>,
    trees: seq<SNode>,
    classes: Classes)

  const Initial := Analyzer(Empty, [], map[], [], map[])

  datatype Verdict = Verdict(ok: bool, state: Analyzer)

  /**
   * `analyze`: no tree leaves the state alone and succeeds; a tree resets
   * the state, registers the classes, analyses from a fresh table, and
   * succeeds iff the semantic tree holds no error.  The warnings are the
   * unused symbols of the final table.
   */
  function AnalyzeProgram(mode: Mode, s: Analyzer, root: Option<Node>): Verdict
    requires root.Some? ==> WellShaped(root.value)
  {
    match root
    case None => Verdict(true, s)
    case Some(n) =>
      var cls := CollectClasses(n, map[]);
      var out := Analyze(mode, cls, n, Empty);
      var errs := CollectErrors(out.node);
      Verdict(|errs| == 0, Analyzer(out.table, errs, UnusedWarnings(out.table), [out.node], cls))
  }
}

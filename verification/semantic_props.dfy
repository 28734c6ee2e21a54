/**
 * What the semantic analysis guarantees: the typing rules as they reach
 * statements, the quirks of the dispatch, class registration, error
 * collection and the top-level verdict.
 */
module SemanticProps {
  import opened Wrappers
  import Text
  import opened Ast
  import opened Symbols
  import opened Typing
  import opened Semantic

  // ---------------------------------------------------------------------
  // Dispatch quirks

  /**
   * A method call's object is analysed and nothing else happens: the
   * semantic `id` node never has children, so the class-method check,
   * which looks for an access chain below it, can never fire.
   */
  lemma MethodCallNeverChecked(mode: Mode, cls: Classes, n: Node, t: Table)
    requires WellShaped(n) && n.kind == "llamada_metodo" && |n.children| >= 1
    ensures var r := Analyze(mode, cls, n, t).node;
      && r.children == [Analyze(mode, cls, n.children[0], t).node]
      && r.dataType.None? && r.errors == []
      && !(r.children[0].kind == "id" && |r.children[0].children| >= 1)
  {
    var o := Analyze(mode, cls, n.children[0], t);
    if n.children[0].kind == "id" {
      assert o.node.children == [];
    }
  }

  /**
   * `NOT e` has one child, so it takes the pass-through branch: no check,
   * no error, the operator is dropped, and the type is the operand's
   * (`booleano` for a relational operand).
   */
  lemma NotIsUnchecked(mode: Mode, cls: Classes, operand: Node, t: Table)
    requires WellShaped(operand)
    ensures WellShaped(Not(operand))
    ensures var r := Analyze(mode, cls, Not(operand), t);
      var o := Analyze(mode, cls, operand, t);
      && r.node.errors == [] && r.node.value.None?
      && r.node.children == [o.node] && r.table == o.table
      && r.node.dataType == (if operand.kind == "expresion_relacional" then Some(Booleano) else o.node.dataType)
  {
    assert Not(operand).children[0] == operand;
  }

  /** A read of an undeclared identifier leaves the type unset and reports nothing. */
  lemma UndeclaredReadIsSilent(mode: Mode, cls: Classes, name: Name, t: Table)
    requires Lookup(t, Some(name.text)).None?
    ensures var r := Analyze(mode, cls, IdFactor(name), t);
      CollectErrors(r.node) == [] && r.node.dataType.None? && r.table == t
  {
    var r := Analyze(mode, cls, IdFactor(name), t);
    var id := Analyze(mode, cls, IdOf(name), t);
    assert id.node.children == [] && id.node.errors == [];
    assert CollectErrors(id.node) == [];
    assert r.node.children == [id.node];
    assert ErrorsFrom(r.node, 1) == [];
  }

  /**
   * A read of a visible identifier takes its type (the analysis only
   * declares non-empty types) and marks that symbol used.
   */
  lemma ReadMarksUsed(mode: Mode, cls: Classes, name: Name, t: Table)
    requires Lookup(t, Some(name.text)).Some?
    ensures var r := Analyze(mode, cls, IdFactor(name), t);
      var sym := Lookup(t, Some(name.text)).value;
      && r.node.dataType == (if sym.declaredType != "" then Some(sym.declaredType) else None)
      && r.table == Mark(t, Some(name.text), true, false)
      && Lookup(r.table, Some(name.text)) == Some(sym.(used := true))
  {
    var n := IdFactor(name);
    assert n.children[0] == IdOf(name);
    var sym := Lookup(t, Some(name.text)).value;
    var id := Analyze(mode, cls, IdOf(name), t);
    assert id.node.dataType == Some(sym.declaredType);
    assert id.table == Mark(t, Some(name.text), true, false);
    MarkFound(t, Some(name.text), true, false);
  }

  // ---------------------------------------------------------------------
  // Declarations and assignments

  /**
   * `tipo ID = expr`: an unknown type is reported on the declaration and
   * nothing is declared; a name the scope already has is reported on the
   * variable and the expression is not analysed; otherwise the variable
   * is declared initialised, and its node carries an error exactly when
   * the (re-inferred) expression type is not assignable to the type.
   */
  lemma DeclarationRule(mode: Mode, cls: Classes, tipo: Node, name: Name, expr: Node, line: nat, column: nat, t: Table)
    requires WellShaped(tipo) && WellShaped(expr)
    ensures WellShaped(DeclInit(tipo, name, expr, line, column))
    ensures var r := Analyze(mode, cls, DeclInit(tipo, name, expr, line, column), t);
      var key := Some(name.text);
      && (!ValidType(cls, tipo.leaf) ==>
            r.node.errors == [UndefinedType(tipo.leaf)] && r.node.children == [] && r.table == t)
      && (ValidType(cls, tipo.leaf) && Declared(t, t.current, key) ==>
            |r.node.children| == 2 && r.node.children[1].errors == [AlreadyDeclared(key)] && r.table == t)
      && (ValidType(cls, tipo.leaf) && !Declared(t, t.current, key) ==>
            && |r.node.children| == 3
            && r.node.children[1].dataType == tipo.leaf
            && (r.node.children[1].errors == [] <==> Assignable(tipo.leaf, r.node.children[2].dataType))
            && Declared(r.table, t.current, key)
            && r.table.symbols[t.current][key].declaredType == tipo.leaf.value
            && (t.current != "" ==> r.table.symbols[t.current][key].initialized))
  {
    var n := DeclInit(tipo, name, expr, line, column);
    assert n.children == [tipo, IdOf(name), expr];
    DispatchDeclaration(mode, cls, n, t);
    if ValidType(cls, tipo.leaf) && !Declared(t, t.current, Some(name.text)) {
      DeclarationAdds(mode, cls, tipo, name, expr, line, column, t);
    }
  }

  /** Unfolding helper: `Analyze` sends a `declaracion_variable` node to `AnalyzeDeclaration`. */
  lemma DispatchDeclaration(mode: Mode, cls: Classes, n: Node, t: Table)
    requires WellShaped(n) && n.kind == "declaracion_variable"
    ensures Analyze(mode, cls, n, t) == AnalyzeDeclaration(mode, cls, n, t)
  {
  }

  /** The accepted case of `DeclarationRule`: the symbol is added and marked initialised. */
  lemma DeclarationAdds(mode: Mode, cls: Classes, tipo: Node, name: Name, expr: Node, line: nat, column: nat, t: Table)
    requires WellShaped(tipo) && WellShaped(expr)
    requires ValidType(cls, tipo.leaf) && !Declared(t, t.current, Some(name.text))
    ensures WellShaped(DeclInit(tipo, name, expr, line, column))
    ensures var r := AnalyzeDeclaration(mode, cls, DeclInit(tipo, name, expr, line, column), t);
      var key := Some(name.text);
      && |r.node.children| == 3
      && r.node.children[1].dataType == tipo.leaf
      && (r.node.children[1].errors == [] <==> Assignable(tipo.leaf, r.node.children[2].dataType))
      && Declared(r.table, t.current, key)
      && r.table.symbols[t.current][key].declaredType == tipo.leaf.value
      && (t.current != "" ==> r.table.symbols[t.current][key].initialized)
  {
    var n := DeclInit(tipo, name, expr, line, column);
    assert n.children == [tipo, IdOf(name), expr];
    var key := Some(name.text);
    var added := AddSymbol(t, key, tipo.leaf.value, name.line, name.column);
    var t1 := Mark(added.table, key, false, true);
    AddNew(t, key, tipo.leaf.value, name.line, name.column);
    if t.current != "" {
      assert FindScope(added.table.symbols, t.current, key) == Some(t.current);
      assert t1.symbols[t.current][key].initialized;
    }
    assert Declared(t1, t.current, key) && t1.symbols[t.current][key].declaredType == tipo.leaf.value;
  }

  /**
   * The `lista_ids` declaration: variable `i` is accepted iff its name is
   * neither in the current scope beforehand nor earlier in the list, and
   * afterwards every listed name is declared in the current scope.
   */
  lemma {:induction false} DeclareIdsRule(ids: seq<Node>, tipo: string, t: Table)
    ensures var r := DeclareIds(ids, tipo, t);
      && (forall i :: 0 <= i < |ids| ==>
            (r.nodes[i].errors == [] <==>
               !Declared(t, t.current, ids[i].leaf) && forall j :: 0 <= j < i ==> ids[j].leaf != ids[i].leaf))
      && (forall i :: 0 <= i < |ids| ==> Declared(r.table, t.current, ids[i].leaf))
    decreases |ids|
  {
    if |ids| > 0 {
      var added := AddSymbol(t, ids[0].leaf, tipo, ids[0].line, ids[0].column);
      var r := DeclareIds(ids, tipo, t);
      var rest := DeclareIds(ids[1..], tipo, added.table);
      DeclareIdsRule(ids[1..], tipo, added.table);
      assert Declared(added.table, t.current, ids[0].leaf);
      forall i | 0 <= i < |ids|
        ensures r.nodes[i].errors == [] <==>
          !Declared(t, t.current, ids[i].leaf) && forall j :: 0 <= j < i ==> ids[j].leaf != ids[i].leaf
        ensures Declared(r.table, t.current, ids[i].leaf)
      {
        if i > 0 {
          assert r.nodes[i] == rest.nodes[i - 1];
          assert ids[i] == ids[1..][i - 1];
          assert Declared(added.table, t.current, ids[i].leaf) <==>
            Declared(t, t.current, ids[i].leaf) || ids[i].leaf == ids[0].leaf;
          if forall j :: 0 <= j < i ==> ids[j].leaf != ids[i].leaf {
            forall j | 0 <= j < i - 1 ensures ids[1..][j].leaf != ids[1..][i - 1].leaf {
              assert ids[1..][j] == ids[j + 1];
            }
          } else {
            var j :| 0 <= j < i && ids[j].leaf == ids[i].leaf;
            if j > 0 {
              assert ids[1..][j - 1] == ids[j];
            }
          }
        }
      }
    }
  }

  /**
   * `ID = expr` on a plain variable: an undeclared target is reported on
   * its `variable` node; a declared one is marked initialised and used,
   * and the assignment carries an error exactly when the expression type
   * is wrong — for a class-typed variable anything but the class itself
   * (an unknown type included), for a basic one what `Assignable` refuses.
   */
  lemma AssignmentRule(mode: Mode, cls: Classes, target: Name, expr: Node, t: Table)
    requires WellShaped(expr)
    ensures WellShaped(Assign(target, expr))
    ensures var r := Analyze(mode, cls, Assign(target, expr), t);
      var key := Some(target.text);
      && (Lookup(t, key).None? ==>
            && r.node.errors == [] && r.table == t
            && r.node.children == [Fresh("variable", key, target.line, target.column).(errors := [Undeclared(key)])])
      && (Lookup(t, key).Some? ==>
            var ty := Lookup(t, key).value.declaredType;
            var e := Analyze(mode, cls, expr, Mark(t, key, true, true));
            && r.table == e.table
            && r.node.children == [Fresh("variable", key, target.line, target.column).(dataType := Some(ty)), e.node]
            && (r.node.errors == [] <==>
                  if ty in cls then e.node.dataType == Some(ty) else Assignable(Some(ty), e.node.dataType)))
  {
    assert Assign(target, expr).children == [IdOf(target), expr];
  }

  // ---------------------------------------------------------------------
  // Expressions and conditions

  /** Unfolding helper: `Analyze` sends a `expresion_aritmetica` node to `AnalyzeArithmetic`. */
  lemma DispatchArithmetic(mode: Mode, cls: Classes, n: Node, t: Table)
    requires WellShaped(n) && n.kind == "expresion_aritmetica"
    ensures Analyze(mode, cls, n, t) == AnalyzeArithmetic(mode, cls, n, t)
  {
  }

  /** Unfolding helper: `Analyze` sends a `expresion_relacional` node to `AnalyzeRelational`. */
  lemma DispatchRelational(mode: Mode, cls: Classes, n: Node, t: Table)
    requires WellShaped(n) && n.kind == "expresion_relacional"
    ensures Analyze(mode, cls, n, t) == AnalyzeRelational(mode, cls, n, t)
  {
  }

  /** Unfolding helper: `Analyze` sends a `expresion_logica` node to `AnalyzeLogical`. */
  lemma DispatchLogical(mode: Mode, cls: Classes, n: Node, t: Table)
    requires WellShaped(n) && n.kind == "expresion_logica"
    ensures Analyze(mode, cls, n, t) == AnalyzeLogical(mode, cls, n, t)
  {
  }

  /** Unfolding helper: `Analyze` sends a `sentencia_if` node to `AnalyzeIf`. */
  lemma DispatchIf(mode: Mode, cls: Classes, n: Node, t: Table)
    requires WellShaped(n) && n.kind == "sentencia_if"
    ensures Analyze(mode, cls, n, t) == AnalyzeIf(mode, cls, n, t)
  {
  }

  /** Unfolding helper: `Analyze` sends a `sentencia_for` node to `AnalyzeFor`. */
  lemma DispatchFor(mode: Mode, cls: Classes, n: Node, t: Table)
    requires WellShaped(n) && n.kind == "sentencia_for"
    ensures Analyze(mode, cls, n, t) == AnalyzeFor(mode, cls, n, t)
  {
  }

  /** Unfolding helper: `Analyze` sends a `sentencia_while` node to `AnalyzeWhile`. */
  lemma DispatchWhile(mode: Mode, cls: Classes, n: Node, t: Table)
    requires WellShaped(n) && n.kind == "sentencia_while"
    ensures Analyze(mode, cls, n, t) == AnalyzeWhile(mode, cls, n, t)
  {
  }

  /**
   * A binary arithmetic node is typed by `ArithmeticCheck` on its
   * operands' types, with an error exactly when the check fails.  This
   * holds for `-` only under the intended reading.
   */
  lemma ArithmeticRule(mode: Mode, cls: Classes, l: Node, op: string, r: Node, line: nat, column: nat, t: Table)
    requires WellShaped(l) && WellShaped(r)
    requires mode == Intended || op != "-"
    ensures WellShaped(Arithmetic(l, op, r, line, column))
    ensures var res := Analyze(mode, cls, Arithmetic(l, op, r, line, column), t);
      var a := Analyze(mode, cls, l, t);
      var b := Analyze(mode, cls, r, a.table);
      var c := ArithmeticCheck(Some(op), a.node.dataType, b.node.dataType);
      && res.node.children == [a.node, b.node] && res.table == b.table
      && res.node.value == Some(op)
      && res.node.dataType == c.ty
      && res.node.errors == (if c.ok then [] else [OperationMismatch(Some(op), a.node.dataType, b.node.dataType)])
  {
    var n := Arithmetic(l, op, r, line, column);
    assert n.children == [l, r];
    DispatchArithmetic(mode, cls, n, t);
  }

  /**
   * A comparison is always typed `booleano`; it is reported exactly when
   * `RelationalOk` fails.
   */
  lemma RelationalRule(mode: Mode, cls: Classes, l: Node, op: string, r: Node, line: nat, column: nat, t: Table)
    requires WellShaped(l) && WellShaped(r)
    ensures WellShaped(Relational(l, op, r, line, column))
    ensures var res := Analyze(mode, cls, Relational(l, op, r, line, column), t);
      var a := Analyze(mode, cls, l, t);
      var b := Analyze(mode, cls, r, a.table);
      && res.node.children == [a.node, b.node]
      && res.node.dataType == Some(Booleano)
      && (res.node.errors == [] <==> RelationalOk(Some(op), a.node.dataType, b.node.dataType))
  {
    var n := Relational(l, op, r, line, column);
    assert n.children == [l, r];
    DispatchRelational(mode, cls, n, t);
  }

  /** AND/OR are always typed `booleano` and reported exactly when `LogicalOk` fails. */
  lemma LogicalRule(mode: Mode, cls: Classes, l: Node, op: string, r: Node, t: Table)
    requires WellShaped(l) && WellShaped(r) && op != "NOT"
    ensures WellShaped(Logical(l, op, r))
    ensures var res := Analyze(mode, cls, Logical(l, op, r), t);
      var a := Analyze(mode, cls, l, t);
      var b := Analyze(mode, cls, r, a.table);
      && res.node.children == [a.node, b.node]
      && res.node.dataType == Some(Booleano)
      && (res.node.errors == [] <==> LogicalOk(a.node.dataType, b.node.dataType))
  {
    var n := Logical(l, op, r);
    assert n.children == [l, r];
    DispatchLogical(mode, cls, n, t);
  }

  /**
   * An `if` is reported exactly when its condition, after a relational
   * one is forced to `booleano`, has a known type other than `booleano`.
   */
  lemma IfConditionRule(mode: Mode, cls: Classes, cond: Node, body: Node, otherwise: Option<Node>, line: nat, column: nat, t: Table)
    requires WellShaped(cond) && WellShaped(body) && (otherwise.Some? ==> WellShaped(otherwise.value))
    ensures WellShaped(If(cond, body, otherwise, line, column))
    ensures var r := Analyze(mode, cls, If(cond, body, otherwise, line, column), t);
      var c := Analyze(mode, cls, cond, t);
      && |r.node.children| >= 1 && r.node.children[0] == Conditioned(c.node)
      && (r.node.errors == [] <==> ConditionOk(ConditionType(cond.kind, c.node.dataType)))
      && (cond.kind == "expresion_relacional" ==> r.node.errors == [])
  {
    var n := If(cond, body, otherwise, line, column);
    assert n.children[0] == cond;
    assert forall i :: 0 <= i < |n.children| ==> WellShaped(n.children[i]);
    DispatchIf(mode, cls, n, t);
  }

  /** The same rule for `mientras`. */
  lemma WhileConditionRule(mode: Mode, cls: Classes, cond: Node, body: Node, line: nat, column: nat, t: Table)
    requires WellShaped(cond) && WellShaped(body)
    ensures WellShaped(While(cond, body, line, column))
    ensures var r := Analyze(mode, cls, While(cond, body, line, column), t);
      var c := Analyze(mode, cls, cond, t);
      && r.node.children == [Conditioned(c.node), Analyze(mode, cls, body, c.table).node]
      && (r.node.errors == [] <==> ConditionOk(ConditionType(cond.kind, c.node.dataType)))
  {
    var n := While(cond, body, line, column);
    assert n.children == [cond, body];
    DispatchWhile(mode, cls, n, t);
  }

  /** The same rule for `para`, whose condition is its second part. */
  lemma ForConditionRule(mode: Mode, cls: Classes, init: Node, cond: Node, update: Node, body: Node, t: Table)
    requires WellShaped(init) && WellShaped(cond) && WellShaped(update) && WellShaped(body)
    ensures WellShaped(For(init, cond, update, body))
    ensures var r := Analyze(mode, cls, For(init, cond, update, body), t);
      var i := Analyze(mode, cls, init, t);
      var c := Analyze(mode, cls, cond, i.table);
      && |r.node.children| == 4
      && r.node.children[0] == i.node
      && r.node.children[1] == Conditioned(c.node)
      && (r.node.errors == [] <==> ConditionOk(ConditionType(cond.kind, c.node.dataType)))
  {
    var n := For(init, cond, update, body);
    assert n.children == [init, cond, update, body];
    DispatchFor(mode, cls, n, t);
    var i := Analyze(mode, cls, init, t);
    var m := Children(mode, cls, n, 0, 4, t);
    var m1 := Children(mode, cls, n, 1, 4, i.table);
    assert m.nodes[1] == m1.nodes[0];
  }

  // ---------------------------------------------------------------------
  // Subtraction (see Findings)

  /**
   * As written, `l - r` is analysed as a negation of `r`: `l` is never
   * analysed, so its identifiers are neither checked nor marked used.
   */
  lemma SubtractionAsWritten(cls: Classes, l: Node, r: Node, line: nat, column: nat, t: Table)
    requires WellShaped(l) && WellShaped(r)
    ensures WellShaped(Arithmetic(l, "-", r, line, column))
    ensures var res := Analyze(AsWritten, cls, Arithmetic(l, "-", r, line, column), t);
      var b := Analyze(AsWritten, cls, r, t);
      && res.node.children == [b.node] && res.table == b.table
      && (res.node.errors == [] <==> NegationOk(b.node.dataType))
  {
    assert Arithmetic(l, "-", r, line, column).children == [l, r];
  }

  /** A table holding one `cadena` variable `s` in the global scope. */
  function WithString(): Table {
    AddSymbol(Empty, Some("s"), Cadena, 1, 1).table
  }

  /** `s - 1` for that `s`. */
  function StringMinusOne(): Node {
    Arithmetic(IdFactor(Name("s", 2, 1)), "-", Literal("1", 2, 5), 2, 3)
  }

  /**
   * The discrepancy: as written, `s - 1` on a `cadena` passes and leaves
   * `s` unused; intended, it is the operation error the table implies,
   * and `s` is used.
   */
  lemma StringMinusOneExample()
    ensures WellShaped(StringMinusOne())
    ensures CollectErrors(Analyze(AsWritten, map[], StringMinusOne(), WithString()).node) == []
    ensures !Lookup(Analyze(AsWritten, map[], StringMinusOne(), WithString()).table, Some("s")).value.used
    ensures Analyze(Intended, map[], StringMinusOne(), WithString()).node.errors ==
      [OperationMismatch(Some("-"), Some(Cadena), Some(Entero))]
    ensures Lookup(Analyze(Intended, map[], StringMinusOne(), WithString()).table, Some("s")).value.used
  {
    StringMinusOneAsWritten();
    StringMinusOneIntended();
  }

  /** The table's one symbol. */
  lemma WithStringFacts()
    ensures Lookup(WithString(), Some("s")) == Some(Symbol(Some("s"), Cadena, "global", 1, 1, false, false))
  {
    AddNew(Empty, Some("s"), Cadena, 1, 1);
  }

  /** `1` is an `entero` literal, whatever the table. */
  lemma OneIsEntero(mode: Mode, cls: Classes, line: nat, column: nat, t: Table)
    ensures Analyze(mode, cls, Literal("1", line, column), t) ==
      Out(Fresh("factor", Some("1"), line, column).(dataType := Some(Entero)), t)
  {
    assert IsNumeral("1") by { assert Text.IsDigit("1"[0]); }
    assert Text.Lower("1") == "1";
    assert InferLiteral("1", t) == Some(Entero);
  }

  lemma StringMinusOneAsWritten()
    ensures WellShaped(StringMinusOne())
    ensures CollectErrors(Analyze(AsWritten, map[], StringMinusOne(), WithString()).node) == []
    ensures !Lookup(Analyze(AsWritten, map[], StringMinusOne(), WithString()).table, Some("s")).value.used
  {
    var t := WithString();
    WithStringFacts();
    var one := Literal("1", 2, 5);
    var w := Analyze(AsWritten, map[], StringMinusOne(), t);
    assert StringMinusOne().children[1] == one;
    OneIsEntero(AsWritten, map[], 2, 5, t);
    var o := Analyze(AsWritten, map[], one, t);
    assert w.node.children == [o.node];
    assert CollectErrors(o.node) == [];
    assert ErrorsFrom(w.node, 1) == [];
    assert w.table == t;
  }

  lemma StringMinusOneIntended()
    ensures Analyze(Intended, map[], StringMinusOne(), WithString()).node.errors ==
      [OperationMismatch(Some("-"), Some(Cadena), Some(Entero))]
    ensures Lookup(Analyze(Intended, map[], StringMinusOne(), WithString()).table, Some("s")).value.used
  {
    var t := WithString();
    var s := IdFactor(Name("s", 2, 1));
    var a := StringRead(t);
    OneIsEntero(Intended, map[], 2, 5, a.table);
    assert !ArithmeticCheck(Some("-"), Some(Cadena), Some(Entero)).ok;
    assert StringMinusOne() == Arithmetic(s, "-", Literal("1", 2, 5), 2, 3);
    ArithmeticRule(Intended, map[], s, "-", Literal("1", 2, 5), 2, 3, t);
  }

  /** Reading `s` gives a `cadena` and marks `s` used. */
  lemma StringRead(t: Table) returns (a: Out)
    requires t == WithString()
    ensures a == Analyze(Intended, map[], IdFactor(Name("s", 2, 1)), t)
    ensures a.node.dataType == Some(Cadena)
    ensures Lookup(a.table, Some("s")).Some? && Lookup(a.table, Some("s")).value.used
  {
    WithStringFacts();
    ReadMarksUsed(Intended, map[], Name("s", 2, 1), t);
    a := Analyze(Intended, map[], IdFactor(Name("s", 2, 1)), t);
  }

  // ---------------------------------------------------------------------
  // Classes

  /**
   * `publico clase X { ... }` puts the modifier first, where the member
   * list is looked for, so the class is registered with no members and no
   * methods.
   */
  lemma ModifiedClassIsEmpty(word: string, name: string, members: Node, cls: Classes)
    requires name != ""
    ensures CollectClasses(ClassDecl(Some(Modifier(word)), name, members), cls) == cls[name := NoMembers]
  {
  }

  /**
   * Only members written with an access modifier are registered: in both
   * unmodified forms the second child is a `lista_ids` or an `id`, never a
   * declaration.
   */
  lemma UnmodifiedMembersIgnored(tipo: Node, ids: Node, name: string, expr: Node, info: ClassInfo)
    requires ids.kind == "lista_ids"
    ensures MembersFrom([MemberFields(tipo, ids)], info) == info
    ensures MembersFrom([MemberInit(tipo, name, expr)], info) == info
  {
  }

  /**
   * A field list registers each listed `id` under its leaf with the
   * declared type, and adds no other key.
   */
  lemma {:induction false} FieldsRegistered(info: ClassInfo, ids: seq<Node>, tipo: Option<string>)
    ensures var r := Fields(info, ids, tipo);
      && r.methods == info.methods
      && (forall k :: k in r.members <==> k in info.members || exists i :: 0 <= i < |ids| && ids[i].kind == "id" && ids[i].leaf == k)
      && (forall i :: 0 <= i < |ids| && ids[i].kind == "id" ==> r.members[ids[i].leaf] == tipo)
      && (forall k :: k in info.members && (forall i :: 0 <= i < |ids| && ids[i].kind == "id" ==> ids[i].leaf != k) ==>
            r.members[k] == info.members[k])
    decreases |ids|
  {
    if |ids| > 0 {
      var info' := if ids[0].kind == "id" then info.(members := info.members[ids[0].leaf := tipo]) else info;
      FieldsRegistered(info', ids[1..], tipo);
      var r := Fields(info, ids, tipo);
      forall k ensures k in r.members <==> k in info.members || exists i :: 0 <= i < |ids| && ids[i].kind == "id" && ids[i].leaf == k {
        if exists i :: 0 <= i < |ids| && ids[i].kind == "id" && ids[i].leaf == k {
          var i :| 0 <= i < |ids| && ids[i].kind == "id" && ids[i].leaf == k;
          if i > 0 {
            assert ids[1..][i - 1] == ids[i];
          }
        }
        if exists i :: 0 <= i < |ids[1..]| && ids[1..][i].kind == "id" && ids[1..][i].leaf == k {
          var i :| 0 <= i < |ids[1..]| && ids[1..][i].kind == "id" && ids[1..][i].leaf == k;
          assert ids[i + 1] == ids[1..][i];
        }
      }
      forall i | 0 <= i < |ids| && ids[i].kind == "id" ensures r.members[ids[i].leaf] == tipo {
        if i > 0 {
          assert ids[1..][i - 1] == ids[i];
        }
      }
      forall k | k in info.members && (forall i :: 0 <= i < |ids| && ids[i].kind == "id" ==> ids[i].leaf != k)
        ensures r.members[k] == info.members[k]
      {
        forall i | 0 <= i < |ids[1..]| && ids[1..][i].kind == "id" ensures ids[1..][i].leaf != k {
          assert ids[1..][i] == ids[i + 1];
        }
      }
    }
  }

  /**
   * A method's parameter list is one `lista_parametros` node, so only its
   * first type and name are recorded, however many parameters there are.
   */
  lemma OnlyFirstParameter(types: seq<Node>, names: seq<string>)
    requires |types| == |names| >= 1
    ensures Params([ParamList(types, names)]) == [Param(types[0].leaf, Some(names[0]))]
  {
    ParamListPairs(types, names);
    assert [ParamList(types, names)][1..] == [];
  }

  /**
   * A method without a return type is recorded under its `parametros`
   * node's leaf (none), with its own name as return type and no
   * parameters.
   */
  lemma UntypedMethodRecord(info: ClassInfo, name: string, params: Node, statements: Node)
    ensures ClassMethod(info, UntypedMethod(name, params, Bloque(statements))) ==
      info.(methods := info.methods[params.leaf := MethodInfo(Some(name), [])])
  {
  }

  // ---------------------------------------------------------------------
  // Errors and the verdict

  /** No node of the tree carries an error. */
  predicate Clean(n: SNode)
    decreases n
  {
    n.errors == [] && forall i :: 0 <= i < |n.children| ==> Clean(n.children[i])
  }

  lemma {:induction false} CollectErrorsEmpty(n: SNode)
    ensures CollectErrors(n) == [] <==> Clean(n)
    decreases n, 1, 0
  {
    ErrorsFromEmpty(n, 0);
  }

  lemma {:induction false} ErrorsFromEmpty(n: SNode, i: nat)
    requires i <= |n.children|
    ensures ErrorsFrom(n, i) == [] <==> forall j :: i <= j < |n.children| ==> Clean(n.children[j])
    decreases n, 0, |n.children| - i
  {
    if i < |n.children| {
      CollectErrorsEmpty(n.children[i]);
      ErrorsFromEmpty(n, i + 1);
    }
  }

  /**
   * `analyze` succeeds iff no node of the semantic tree carries an error;
   * with no tree it succeeds and keeps the state.
   */
  lemma VerdictIffClean(mode: Mode, s: Analyzer, root: Option<Node>)
    requires root.Some? ==> WellShaped(root.value)
    ensures root.None? ==> AnalyzeProgram(mode, s, root) == Verdict(true, s)
    ensures root.Some? ==>
      var v := AnalyzeProgram(mode, s, root);
      v.state.trees == [Analyze(mode, CollectClasses(root.value, map[]), root.value, Empty).node] &&
      (v.ok <==> Clean(v.state.trees[0]))
  {
    if root.Some? {
      CollectErrorsEmpty(Analyze(mode, CollectClasses(root.value, map[]), root.value, Empty).node);
    }
  }

  /** `analyze` resets first: its outcome does not depend on earlier calls. */
  lemma AnalyzeForgetsEarlierCalls(mode: Mode, s1: Analyzer, s2: Analyzer, root: Node)
    requires WellShaped(root)
    ensures AnalyzeProgram(mode, s1, Some(root)) == AnalyzeProgram(mode, s2, Some(root))
  {
  }

  /**
   * The warnings are exactly the unused symbols of the final table, one
   * per scope and name, at the declaration's position; a symbol that is
   * used at any point of the analysis stays used and is never warned.
   */
  lemma WarningsAreUnusedSymbols(mode: Mode, s: Analyzer, root: Node)
    requires WellShaped(root)
    ensures var st := AnalyzeProgram(mode, s, Some(root)).state;
      forall sc, nm :: (sc, nm) in st.warnings <==> Declared(st.table, sc, nm) && !st.table.symbols[sc][nm].used
  {
    UnusedWarningsExact(AnalyzeProgram(mode, s, Some(root)).state.table);
  }

  lemma UsedIsNeverWarned(a: Table, b: Table, scope: string, name: Ident)
    requires Extends(a, b) && Declared(a, scope, name) && a.symbols[scope][name].used
    ensures (scope, name) !in UnusedWarnings(b)
  {
    UnusedWarningsExact(b);
  }
}

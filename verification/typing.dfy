/**
 * The semantic analyser's type rules: the operator compatibility table,
 * the checks for arithmetic, relational, logical and condition
 * expressions, and the assignment rule.
 *
 * A node's data type is `None` until some rule sets it.  The checks test
 * a type for truthiness, so the empty string counts as unknown there too.
 */
module Typing {
  import opened Wrappers

  /** A semantic node's `data_type`. */
  type Ty = Option<string>

  /** Python truthiness of a data type. */
  predicate Known(t: Ty) {
    t.Some? && t.value != ""
  }

  const Entero := "entero"
  const Flotante := "flotante"
  const Booleano := "booleano"
  const Caracter := "caracter"
  const Cadena := "cadena"
  const Vacio := "vacio"

  /** `basic_types`. */
  const BasicTypes: set<string> := {Entero, Flotante, Booleano, Caracter, Cadena, Vacio}

  predicate Numeric(s: string) {
    s == Entero || s == Flotante
  }

  /** `entero` if both operands are `entero`, otherwise `flotante`. */
  function Widest(l: string, r: string): string {
    if l == Entero && r == Entero then Entero else Flotante
  }

  /**
   * `type_compatibility[op][l][r]` when all three keys are present.  The
   * `NOT` entry has a different shape and is left out.
   */
  function Compat(op: string, l: string, r: string): Option<string> {
    if op == "+" then
      if Numeric(l) && Numeric(r) then Some(Widest(l, r))
      else if l == Cadena && r == Cadena then Some(Cadena)
      else None
    else if op == "-" || op == "*" then
      if Numeric(l) && Numeric(r) then Some(Widest(l, r)) else None
    else if op == "/" then
      if Numeric(l) && Numeric(r) then Some(Flotante) else None
    else if op == "%" then
      if l == Entero && r == Entero then Some(Entero) else None
    else if op == "==" || op == "!=" then
      if (Numeric(l) && Numeric(r)) || (l == r && l in {Booleano, Cadena, Caracter}) then Some(Booleano) else None
    else if op == "<" || op == ">" || op == "<=" || op == ">=" then
      if Numeric(l) && Numeric(r) then Some(Booleano) else None
    else if op == "AND" || op == "OR" then
      if l == Booleano && r == Booleano then Some(Booleano) else None
    else None
  }

  /** A checked operation's data type and whether the check passed. */
  datatype Checked = Checked(ty: Ty, ok: bool)

  /**
   * `_check_arithmetic_compatibility`: a missing operand type defers to
   * the other one (`entero` when both are missing); otherwise the table
   * decides, and a pair it lacks is an error that leaves the type unset.
   */
  function ArithmeticCheck(op: Option<string>, l: Ty, r: Ty): Checked {
    if l.None? && r.None? then Checked(Some(Entero), true)
    else if l.None? then Checked(r, true)
    else if r.None? then Checked(l, true)
    else if op.Some? && Compat(op.value, l.value, r.value).Some? then Checked(Compat(op.value, l.value, r.value), true)
    else Checked(None, false)
  }

  /**
   * `_check_relational_compatibility`: only when both types are known,
   * `==`/`!=` demand identical types and the orderings demand numbers.
   */
  predicate RelationalOk(op: Option<string>, l: Ty, r: Ty) {
    Known(l) && Known(r) ==>
      if op == Some("==") || op == Some("!=") then l == r
      else if op == Some(">") || op == Some("<") || op == Some(">=") || op == Some("<=") then
        Numeric(l.value) && Numeric(r.value)
      else true
  }

  /** `_check_logical_compatibility`: two known types must both be `booleano`. */
  predicate LogicalOk(l: Ty, r: Ty) {
    Known(l) && Known(r) ==> l == Some(Booleano) && r == Some(Booleano)
  }

  /** The unary minus accepts exactly the numeric types. */
  predicate NegationOk(t: Ty) {
    t == Some(Entero) || t == Some(Flotante)
  }

  /** `_check_boolean_condition` first forces a relational condition to `booleano`. */
  function ConditionType(kind: string, t: Ty): Ty {
    if kind == "expresion_relacional" then Some(Booleano) else t
  }

  /** A condition is rejected only when its type is known and not `booleano`. */
  predicate ConditionOk(t: Ty) {
    !(Known(t) && t.value != Booleano)
  }

  /**
   * The declaration and basic-type assignment rule: an unknown source is
   * accepted, and a known one must be the target type or `entero` going
   * into `flotante`.
   */
  predicate Assignable(target: Ty, source: Ty) {
    !Known(source) || source == target || (target == Some(Flotante) && source == Some(Entero))
  }

  // ---------------------------------------------------------------------
  // Properties

  /** Every arithmetic operator of the table is commutative in its operand types. */
  lemma ArithmeticSymmetric(op: Option<string>, l: Ty, r: Ty)
    ensures ArithmeticCheck(op, l, r) == ArithmeticCheck(op, r, l)
  {
  }

  /**
   * With both operand types present, an arithmetic operation is accepted
   * exactly on numbers (and `+` also on two strings); `/` always gives
   * `flotante`, `%` takes only `entero`, and the others give `entero`
   * only for two `entero` operands.
   */
  lemma ArithmeticTyping(op: string, l: string, r: string)
    requires op in {"+", "-", "*", "/", "%"}
    ensures ArithmeticCheck(Some(op), Some(l), Some(r)).ok <==>
      (if op == "%" then l == Entero && r == Entero
       else (Numeric(l) && Numeric(r)) || (op == "+" && l == Cadena && r == Cadena))
    ensures ArithmeticCheck(Some(op), Some(l), Some(r)).ok && Numeric(l) ==>
      ArithmeticCheck(Some(op), Some(l), Some(r)).ty ==
        Some(if op == "/" || l == Flotante || r == Flotante then Flotante else Entero)
    ensures !ArithmeticCheck(Some(op), Some(l), Some(r)).ok ==> ArithmeticCheck(Some(op), Some(l), Some(r)).ty.None?
  {
  }

  /** A missing operand type never makes an arithmetic operation fail. */
  lemma ArithmeticUnknownOperand(op: Option<string>, l: Ty, r: Ty)
    requires l.None? || r.None?
    ensures ArithmeticCheck(op, l, r).ok
    ensures ArithmeticCheck(op, l, r).ty == (if l.None? && r.None? then Some(Entero) else if l.None? then r else l)
  {
  }

  /**
   * Equality is stricter than the table: the table accepts `entero`
   * against `flotante`, the check does not.
   */
  lemma EqualityIgnoresTable()
    ensures Compat("==", Entero, Flotante) == Some(Booleano)
    ensures !RelationalOk(Some("=="), Some(Entero), Some(Flotante))
  {
  }

  /**
   * With both types known, equality passes iff the types are identical,
   * and an ordering passes iff both are numeric; a missing type passes.
   */
  lemma RelationalRule(op: string, l: Ty, r: Ty)
    requires op in {"==", "!=", "<", ">", "<=", ">="}
    ensures !(Known(l) && Known(r)) ==> RelationalOk(Some(op), l, r)
    ensures Known(l) && Known(r) && op in {"==", "!="} ==> (RelationalOk(Some(op), l, r) <==> l == r)
    ensures Known(l) && Known(r) && op in {"<", ">", "<=", ">="} ==>
      (RelationalOk(Some(op), l, r) <==> Compat(op, l.value, r.value).Some?)
  {
  }

  /** The logical check agrees with the table's AND/OR entries on known types. */
  lemma LogicalRule(op: string, l: Ty, r: Ty)
    requires op in {"AND", "OR"} && Known(l) && Known(r)
    ensures LogicalOk(l, r) <==> Compat(op, l.value, r.value).Some?
  {
  }

  /** A relational condition is always accepted, whatever its operands. */
  lemma RelationalConditionOk(t: Ty)
    ensures ConditionOk(ConditionType("expresion_relacional", t))
  {
  }

  /**
   * The assignment rule is a partial order on known types: reflexive,
   * antisymmetric and transitive, with `entero` into `flotante` its only
   * widening.
   */
  lemma AssignableOrder(a: string, b: string, c: string)
    requires a != "" && b != "" && c != ""
    ensures Assignable(Some(a), Some(a))
    ensures Assignable(Some(a), Some(b)) && Assignable(Some(b), Some(a)) ==> a == b
    ensures Assignable(Some(a), Some(b)) && Assignable(Some(b), Some(c)) ==> Assignable(Some(a), Some(c))
    ensures Assignable(Some(a), Some(b)) && a != b ==> a == Flotante && b == Entero
  {
  }

  /** A `flotante` never goes into an `entero`. */
  lemma NoNarrowing()
    ensures !Assignable(Some(Entero), Some(Flotante))
    ensures Assignable(Some(Flotante), Some(Entero))
  {
  }
}

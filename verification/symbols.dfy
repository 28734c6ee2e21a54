/**
 * The semantic analyser's symbol table: one symbol map per scope path,
 * where a scope's path is its parent's path, a dot, and its own name.
 * Lookup walks from the current scope up the dot-prefixes.
 */
module Symbols {
  import opened Wrappers

  /** A symbol's name as the tree carries it: an `id` leaf, which may be missing. */
  type Ident = Option<string>

  datatype Symbol = Symbol(
    name: Ident,
    declaredType: string,
    scope: string,
    line: nat,
    column: nat,
    initialized: bool,
    used: bool)

  datatype Table = Table(symbols: map<string, map<Ident, Symbol>>, current: string)

  /** A fresh table: no scopes yet, current scope `global`. */
  const Empty: Table := Table(map[], "global")

  predicate HasDot(s: string) {
    exists j :: 0 <= j < |s| && s[j] == '.'
  }

  /** The index of the last dot of `s`. */
  function LastDot(s: string): (r: Option<nat>)
    ensures r.Some? ==> r.value < |s| && s[r.value] == '.' && forall j :: r.value < j < |s| ==> s[j] != '.'
    ensures r.None? <==> !HasDot(s)
  {
    if |s| == 0 then None
    else if s[|s| - 1] == '.' then Some(|s| - 1)
    else
      var r := LastDot(s[..|s| - 1]);
      assert forall j :: 0 <= j < |s| - 1 ==> s[..|s| - 1][j] == s[j];
      r
  }

  /** `scope.rsplit(".", 1)[0]`: everything before the last dot. */
  function Parent(scope: string): (r: string)
    requires HasDot(scope)
    ensures |r| < |scope|
  {
    scope[..LastDot(scope).value]
  }

  /** The scope `lookup` tries after `scope`; the empty path ends the walk. */
  function Up(scope: string): (r: string)
    ensures |r| < |scope| || (r == "" && scope == "")
  {
    if HasDot(scope) then Parent(scope) else ""
  }

  /** `enter_scope`: move to the child scope, creating its map if new. */
  function EnterScope(t: Table, name: string): (r: Table)
    ensures Extends(t, r)
  {
    var scope := t.current + "." + name;
    Table(if scope in t.symbols then t.symbols else t.symbols[scope := map[]], scope)
  }

  /** `exit_scope`: move to the parent scope, if the path has one. */
  function ExitScope(t: Table): (r: Table)
    ensures Extends(t, r) && r.symbols == t.symbols
  {
    if HasDot(t.current) then t.(current := Parent(t.current)) else t
  }

  predicate Declared(t: Table, scope: string, name: Ident) {
    scope in t.symbols && name in t.symbols[scope]
  }

  /** `y` is `x` with, at most, flags set that `x` had clear. */
  predicate Keeps(x: Symbol, y: Symbol) {
    y.(initialized := x.initialized, used := x.used) == x && (x.initialized ==> y.initialized) && (x.used ==> y.used)
  }

  /** `b` still holds every symbol of `a`, changed at most by `Keeps`. */
  ghost predicate Extends(a: Table, b: Table) {
    forall s, n :: Declared(a, s, n) ==> Declared(b, s, n) && Keeps(a.symbols[s][n], b.symbols[s][n])
  }

  datatype Added = Added(ok: bool, table: Table)

  /**
   * `add_symbol`: refuse a name the current scope already has; otherwise
   * store a fresh symbol, neither initialised nor used.
   */
  function AddSymbol(t: Table, name: Ident, declaredType: string, line: nat, column: nat): (r: Added)
    ensures Extends(t, r.table) && r.table.current == t.current
  {
    if Declared(t, t.current, name) then Added(false, t)
    else
      var inScope := if t.current in t.symbols then t.symbols[t.current] else map[];
      var sym := Symbol(name, declaredType, t.current, line, column, false, false);
      Added(true, t.(symbols := t.symbols[t.current := inScope[name := sym]]))
  }

  /** The first scope on the walk from `scope` upwards that declares `name`. */
  function FindScope(symbols: map<string, map<Ident, Symbol>>, scope: string, name: Ident): (r: Option<string>)
    ensures r.Some? ==> r.value in symbols && name in symbols[r.value]
    decreases |scope|
  {
    if scope == "" then None
    else if scope in symbols && name in symbols[scope] then Some(scope)
    else FindScope(symbols, Up(scope), name)
  }

  /** `lookup`: the innermost visible symbol called `name`. */
  function Lookup(t: Table, name: Ident): Option<Symbol> {
    match FindScope(t.symbols, t.current, name)
    case Some(s) => Some(t.symbols[s][name])
    case None => None
  }

  /**
   * Setting flags on the symbol `lookup` returns, which the source does
   * through the returned object: `used`/`initialized` become true when
   * asked for and stay as they were otherwise.
   */
  function Mark(t: Table, name: Ident, setUsed: bool, setInitialized: bool): (r: Table)
    ensures Extends(t, r) && r.current == t.current
  {
    match FindScope(t.symbols, t.current, name)
    case None => t
    case Some(s) =>
      var sym := t.symbols[s][name];
      var sym' := sym.(used := sym.used || setUsed, initialized := sym.initialized || setInitialized);
      t.(symbols := t.symbols[s := t.symbols[s][name := sym']])
  }

  /** The scopes `lookup` consults from `scope`, innermost first. */
  function Chain(scope: string): seq<string>
    decreases |scope|
  {
    if scope == "" then [] else [scope] + Chain(Up(scope))
  }

  /** The unused-variable warning of one symbol: its name and declaration position. */
  datatype Warning = UnusedVariable(name: Ident, line: nat, column: nat)

  /**
   * `_check_unused_variables`: one warning per (scope, name) entry whose
   * symbol was never used.
   */
  function UnusedWarnings(t: Table): map<(string, Ident), Warning> {
    map key | key in Entries(t) && !t.symbols[key.0][key.1].used ::
      UnusedVariable(key.1, t.symbols[key.0][key.1].line, t.symbols[key.0][key.1].column)
  }

  function Entries(t: Table): (r: set<(string, Ident)>)
    ensures forall key :: key in r <==> Declared(t, key.0, key.1)
  {
    set s, n | s in t.symbols && n in t.symbols[s] :: (s, n)
  }

  // ---------------------------------------------------------------------
  // Properties

  /** The last dot of `c + "." + n`, for a dot-free `n`, is the one added. */
  lemma LastDotOfChild(c: string, n: string)
    requires !HasDot(n)
    ensures HasDot(c + "." + n) && Parent(c + "." + n) == c
  {
    var s := c + "." + n;
    assert s[|c|] == '.';
    assert forall j :: |c| < j < |s| ==> s[j] == n[j - |c| - 1];
    assert LastDot(s).value == |c|;
    assert s[..|c|] == c;
  }

  /** Entering a dot-free scope name and leaving again restores the current scope. */
  lemma EnterThenExit(t: Table, name: string)
    requires !HasDot(name)
    ensures ExitScope(EnterScope(t, name)).current == t.current
    ensures ExitScope(EnterScope(t, name)).symbols.Keys == t.symbols.Keys + {t.current + "." + name}
    ensures forall s :: s in t.symbols ==> ExitScope(EnterScope(t, name)).symbols[s] == t.symbols[s]
  {
    LastDotOfChild(t.current, name);
  }

  /** Leaving a scope whose path has no dot, such as `global`, changes nothing. */
  lemma ExitAtTop(t: Table)
    requires !HasDot(t.current)
    ensures ExitScope(t) == t
  {
  }

  /** A name the current scope already has is refused and nothing changes. */
  lemma AddExisting(t: Table, name: Ident, declaredType: string, line: nat, column: nat)
    requires Declared(t, t.current, name)
    ensures AddSymbol(t, name, declaredType, line, column) == Added(false, t)
  {
  }

  /**
   * A new name is accepted; lookup then finds the fresh symbol, neither
   * initialised nor used, and every other entry and the current scope
   * are as before.
   */
  lemma AddNew(t: Table, name: Ident, declaredType: string, line: nat, column: nat)
    requires !Declared(t, t.current, name)
    ensures var r := AddSymbol(t, name, declaredType, line, column);
      && r.ok
      && r.table.current == t.current
      && (t.current != "" ==> Lookup(r.table, name) == Some(Symbol(name, declaredType, t.current, line, column, false, false)))
      && Entries(r.table) == Entries(t) + {(t.current, name)}
      && forall s, n :: Declared(t, s, n) ==> r.table.symbols[s][n] == t.symbols[s][n]
  {
    var r := AddSymbol(t, name, declaredType, line, column);
    assert t.current != "" ==> FindScope(r.table.symbols, t.current, name) == Some(t.current);
  }

  /**
   * Lookup from a scope: the symbol of the first scope on the chain that
   * declares the name, or None when no scope on the chain does.
   */
  lemma {:induction false} FindScopeIsFirst(symbols: map<string, map<Ident, Symbol>>, scope: string, name: Ident)
    ensures FindScope(symbols, scope, name).None? <==>
      forall i :: 0 <= i < |Chain(scope)| ==> !(Chain(scope)[i] in symbols && name in symbols[Chain(scope)[i]])
    ensures FindScope(symbols, scope, name).Some? ==>
      exists i :: 0 <= i < |Chain(scope)| && Chain(scope)[i] == FindScope(symbols, scope, name).value &&
        forall j :: 0 <= j < i ==> !(Chain(scope)[j] in symbols && name in symbols[Chain(scope)[j]])
    decreases |scope|
  {
    if scope != "" {
      FindScopeIsFirst(symbols, Up(scope), name);
      var c := Chain(scope);
      assert c == [scope] + Chain(Up(scope));
      if !(scope in symbols && name in symbols[scope]) {
        forall i | 1 <= i < |c| ensures c[i] == Chain(Up(scope))[i - 1] {
        }
        if FindScope(symbols, scope, name).Some? {
          var i :| 0 <= i < |Chain(Up(scope))| && Chain(Up(scope))[i] == FindScope(symbols, scope, name).value &&
            forall j :: 0 <= j < i ==> !(Chain(Up(scope))[j] in symbols && name in symbols[Chain(Up(scope))[j]]);
          assert c[i + 1] == FindScope(symbols, scope, name).value;
          forall j | 0 <= j < i + 1 ensures !(c[j] in symbols && name in symbols[c[j]]) {
            if j > 0 {
              assert c[j] == Chain(Up(scope))[j - 1];
            }
          }
        }
      } else {
        assert c[0] == scope;
      }
    }
  }

  /** `lookup` returns the innermost declaration on the chain (shadowing), or None. */
  lemma LookupInnermost(t: Table, name: Ident)
    ensures Lookup(t, name).None? <==>
      forall i :: 0 <= i < |Chain(t.current)| ==> !Declared(t, Chain(t.current)[i], name)
    ensures Lookup(t, name).Some? ==>
      exists i :: 0 <= i < |Chain(t.current)| && Declared(t, Chain(t.current)[i], name) &&
        Lookup(t, name) == Some(t.symbols[Chain(t.current)[i]][name]) &&
        forall j :: 0 <= j < i ==> !Declared(t, Chain(t.current)[j], name)
  {
    FindScopeIsFirst(t.symbols, t.current, name);
  }

  /**
   * A name declared in a new dot-free child scope hides the parent's, and
   * a name the child does not declare is found as from the parent.
   */
  lemma ChildScopeLookup(t: Table, child: string, name: Ident)
    requires !HasDot(child) && t.current != ""
    ensures var inner := EnterScope(t, child);
      Lookup(inner, name) == (if Declared(inner, inner.current, name) then Some(inner.symbols[inner.current][name])
                              else Lookup(t.(symbols := inner.symbols), name))
  {
    LastDotOfChild(t.current, child);
  }

  /**
   * Marking sets the asked-for flags on the symbol lookup finds, keeps
   * its other fields, and leaves every other entry and the scope alone.
   */
  lemma MarkFound(t: Table, name: Ident, setUsed: bool, setInitialized: bool)
    requires Lookup(t, name).Some?
    ensures var t' := Mark(t, name, setUsed, setInitialized);
      var sym := Lookup(t, name).value;
      && t'.current == t.current
      && Entries(t') == Entries(t)
      && Lookup(t', name) == Some(sym.(used := sym.used || setUsed, initialized := sym.initialized || setInitialized))
      && forall s, n :: Declared(t, s, n) && (s, n) != (FindScope(t.symbols, t.current, name).value, name) ==>
           t'.symbols[s][n] == t.symbols[s][n]
  {
    var s := FindScope(t.symbols, t.current, name).value;
    var t' := Mark(t, name, setUsed, setInitialized);
    FindScopeSameKeys(t.symbols, t'.symbols, t.current, name);
  }

  /** The walk depends only on which scopes declare which names. */
  lemma {:induction false} FindScopeSameKeys(a: map<string, map<Ident, Symbol>>, b: map<string, map<Ident, Symbol>>, scope: string, name: Ident)
    requires a.Keys == b.Keys && forall s :: s in a ==> a[s].Keys == b[s].Keys
    ensures FindScope(a, scope, name) == FindScope(b, scope, name)
    decreases |scope|
  {
    if scope != "" {
      FindScopeSameKeys(a, b, Up(scope), name);
    }
  }

  /** A name lookup cannot find leaves the table as it is. */
  lemma MarkMissing(t: Table, name: Ident, setUsed: bool, setInitialized: bool)
    requires Lookup(t, name).None?
    ensures Mark(t, name, setUsed, setInitialized) == t
  {
  }

  /**
   * Exactly one warning per unused symbol of every scope: the warnings
   * are keyed by scope and name, and each names the symbol and its
   * declaration position.
   */
  lemma UnusedWarningsExact(t: Table)
    ensures forall s, n :: (s, n) in UnusedWarnings(t) <==> Declared(t, s, n) && !t.symbols[s][n].used
    ensures forall s, n :: (s, n) in UnusedWarnings(t) ==>
      UnusedWarnings(t)[(s, n)] == UnusedVariable(n, t.symbols[s][n].line, t.symbols[s][n].column)
  {
  }
}

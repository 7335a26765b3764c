/**
 * lang/semantic.go: scopes holding symbols by name, and the symbol table
 * whose global scope starts with the built-in types.
 *
 * A `baseScope` is copied by value, but its `symbols` map is shared by every
 * copy, so `Define` through any copy is seen by all: a scope is an object
 * whose map the methods replace. A symbol is a value; its scope is never set
 * (see `SetScope`), so it stays nil.
 */
module Semantic {
  import opened TokenErrors

  /** `TypeSymbol`, the only kind of `Symbol`: a name and a scope. */
  datatype Symbol = TypeSymbol(name: string, scope: Scope?)

  /** `Name`. */
  function Name(s: Symbol): string { s.name }

  /** `SetScope` has a value receiver: it sets the scope of a copy of the
   * symbol, and the caller's symbol is the same afterwards. */
  function SetScope(s: Symbol, scope: Scope?): (caller: Symbol)
    ensures caller.scope == s.scope && caller.name == s.name
  {
    var copy := s.(scope := scope);
    s
  }

  /** The built-in type symbols, by name. */
  const DefaultTypeMap: map<string, Symbol> := map[
    "int" := TypeSymbol("int", null),
    "float" := TypeSymbol("float", null),
    "list" := TypeSymbol("list", null),
    "map" := TypeSymbol("map", null),
    "null" := TypeSymbol("null", null),
    "bool" := TypeSymbol("bool", null)]

  /** Each built-in is filed under its own name. */
  lemma DefaultTypesByName()
    ensures DefaultTypeMap.Keys == {"int", "float", "list", "map", "null", "bool"}
    ensures forall k :: k in DefaultTypeMap ==> Name(DefaultTypeMap[k]) == k && DefaultTypeMap[k].scope == null
  {
  }

  /** `baseScope`, as a `GlobalScope` (no parent) or a `LocalScope`. */
  class Scope {
    const parent: Scope?
    var symbols: map<string, Symbol>

    /** `NewGlobalScope`: no parent, no symbols. */
    constructor Global()
      ensures parent == null && symbols == map[]
    {
      parent := null;
      symbols := map[];
    }

    /** `NewLocalScope`: the given parent, no symbols. */
    constructor Local(p: Scope?)
      ensures parent == p && symbols == map[]
    {
      parent := p;
      symbols := map[];
    }

    /** `ParentScope`. */
    function ParentScope(): (p: Scope?)
      ensures p == parent
    {
      parent
    }

    /** `Define`: files the symbol under its name, replacing any symbol of
     * that name; `SetScope` leaves the symbol as it was. */
    method Define(symb: Symbol)
      modifies this
      ensures symbols == old(symbols)[Name(symb) := symb]
    {
      symbols := symbols[Name(symb) := symb];
      var _ := SetScope(symb, this);
    }

    /** `Resolve`: the symbol filed under the name in this scope alone; the
     * parent is never consulted. */
    function Resolve(name: string): (r: Option<Symbol>)
      reads this
      ensures r.Some? <==> name in symbols
      ensures r.Some? ==> r.value == symbols[name]
    {
      if name in symbols then Some(symbols[name]) else None
    }
  }

  /** After `Define(s)`, `Resolve` finds `s` under its name, every other
   * name resolves as before, and a second symbol of the same name replaces
   * the first. */
  method DefineThenResolve(sc: Scope, s: Symbol, t: Symbol, other: string)
    returns (first: Option<Symbol>, second: Option<Symbol>, elsewhere: Option<Symbol>)
    requires Name(t) == Name(s) && other != Name(s)
    modifies sc
    ensures first == Some(s) && second == Some(t)
    ensures elsewhere == old(sc.Resolve(other))
  {
    sc.Define(s);
    first := sc.Resolve(Name(s));
    elsewhere := sc.Resolve(other);
    sc.Define(t);
    second := sc.Resolve(Name(t));
  }

  /** A local scope resolves nothing its parent defines: a fresh local scope
   * under a global one that holds `s` does not find it, while the global
   * scope does, and the local scope's parent is the global one. */
  method LocalDoesNotInherit(s: Symbol) returns (global: Scope, local: Scope, inGlobal: Option<Symbol>, inLocal: Option<Symbol>)
    ensures fresh(global) && fresh(local)
    ensures global.ParentScope() == null && local.ParentScope() == global
    ensures inGlobal == Some(s) && inLocal == None
  {
    global := new Scope.Global();
    global.Define(s);
    local := new Scope.Local(global);
    inGlobal := global.Resolve(Name(s));
    inLocal := local.Resolve(Name(s));
  }

  /** `SymbolTable`. */
  class SymbolTable {
    const globals: Scope

    /** `NewSymbolTable`: a global scope holding exactly the built-in
     * types. */
    constructor ()
      ensures fresh(globals) && globals.parent == null
      ensures globals.symbols == DefaultTypeMap
    {
      globals := new Scope.Global();
      new;
      InitTypeSystem();
    }

    /** `initTypeSystem`: defines every built-in, in whatever order the map
     * is ranged over. */
    method InitTypeSystem()
      modifies globals
      ensures globals.symbols == old(globals.symbols) + DefaultTypeMap
    {
      DefaultTypesByName();
      var left := DefaultTypeMap.Keys;
      while left != {}
        invariant left <= DefaultTypeMap.Keys
        invariant globals.symbols == old(globals.symbols) + map k | k in DefaultTypeMap.Keys - left :: DefaultTypeMap[k]
        decreases left
      {
        var k :| k in left;
        globals.Define(DefaultTypeMap[k]);
        left := left - {k};
      }
      assert DefaultTypeMap.Keys - left == DefaultTypeMap.Keys;
    }
  }
}

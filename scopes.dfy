/**
 * The symbol table of decafcomp.cc: a list of scopes, each a map from a
 * name to a descriptor, searched front to back. Declarations go into the
 * front scope with std::map::insert, which leaves an existing entry in
 * place.
 */
module Scopes {
  import opened Wrappers
  import opened Ir

  /** One scope: a name's descriptor (an llvm::Value*). */
  type Scope = map<string, Value>

  /** The position of the first (innermost) scope binding `name`. */
  function FindScope(scopes: seq<Scope>, name: string): (r: Option<nat>)
    ensures r.Some? ==> r.value < |scopes| && name in scopes[r.value]
    ensures r.Some? ==> forall j :: 0 <= j < r.value ==> name !in scopes[j]
    ensures r.None? ==> forall j :: 0 <= j < |scopes| ==> name !in scopes[j]
  {
    if scopes == [] then None
    else if name in scopes[0] then Some(0)
    else match FindScope(scopes[1..], name)
      case None => None
      case Some(i) => Some(i + 1)
  }

  /** access_symtbl: the binding of the innermost scope that has one, None for NULL. */
  function Lookup(scopes: seq<Scope>, name: string): (r: Option<Value>)
    ensures r.None? <==> forall j :: 0 <= j < |scopes| ==> name !in scopes[j]
    ensures r.Some? ==> exists i :: (0 <= i < |scopes| && name in scopes[i] && scopes[i][name] == r.value
                                     && forall j :: 0 <= j < i ==> name !in scopes[j])
  {
    match FindScope(scopes, name)
    case None => None
    case Some(i) => Some(scopes[i][name])
  }

  /** symtbl.front().insert(pair(name, v)): no effect when the front scope already binds the name. */
  function Declare(scopes: seq<Scope>, name: string, v: Value): (r: seq<Scope>)
    requires |scopes| > 0
    ensures |r| == |scopes| && r[1..] == scopes[1..]
    ensures name in r[0] && r[0][name] == (if name in scopes[0] then scopes[0][name] else v)
    ensures forall k :: k != name ==> (k in r[0] <==> k in scopes[0])
    ensures forall k :: k in scopes[0] ==> r[0][k] == scopes[0][k]
  {
    if name in scopes[0] then scopes else scopes[0 := scopes[0][name := v]]
  }

  /** `after` differs from `before` at most by new entries in the front scope. */
  predicate FrontGrown(before: seq<Scope>, after: seq<Scope>) {
    && |after| == |before|
    && (|before| > 0 ==> after[1..] == before[1..]
                         && forall k :: k in before[0] ==> k in after[0] && after[0][k] == before[0][k])
  }

  lemma FrontGrownRefl(s: seq<Scope>)
    ensures FrontGrown(s, s)
  {
  }

  lemma FrontGrownTrans(a: seq<Scope>, b: seq<Scope>, c: seq<Scope>)
    requires FrontGrown(a, b) && FrontGrown(b, c)
    ensures FrontGrown(a, c)
  {
  }

  lemma DeclareGrows(scopes: seq<Scope>, name: string, v: Value)
    requires |scopes| > 0
    ensures FrontGrown(scopes, Declare(scopes, name, v))
  {
  }

  /** After a declaration the name resolves to the front scope's entry: the old one if there was one. */
  lemma {:induction false} LookupAfterDeclare(scopes: seq<Scope>, name: string, v: Value)
    requires |scopes| > 0
    ensures Lookup(Declare(scopes, name, v), name) == Some(if name in scopes[0] then scopes[0][name] else v)
  {
    var r := Declare(scopes, name, v);
    assert FindScope(r, name) == Some(0);
  }

  /** A declaration changes the resolution of no other name. */
  lemma {:induction false} LookupOtherAfterDeclare(scopes: seq<Scope>, name: string, v: Value, other: string)
    requires |scopes| > 0 && other != name
    ensures Lookup(Declare(scopes, name, v), other) == Lookup(scopes, other)
  {
    var r := Declare(scopes, name, v);
    assert r[1..] == scopes[1..];
    assert (other in r[0]) == (other in scopes[0]);
    if other !in scopes[0] {
      assert FindScope(r, other) == (match FindScope(scopes[1..], other) case None => None case Some(i) => Some(i + 1));
    }
  }

  /** A new, empty front scope hides nothing. */
  lemma {:induction false} LookupAfterPush(scopes: seq<Scope>, name: string)
    ensures Lookup([map[]] + scopes, name) == Lookup(scopes, name)
  {
    assert ([map[]] + scopes)[1..] == scopes;
  }

  /**
   * A binding made in a pushed scope shadows the outer ones while the
   * scope is there, and is gone once it is popped.
   */
  lemma ShadowThenPop(scopes: seq<Scope>, name: string, v: Value)
    ensures Lookup(Declare([map[]] + scopes, name, v), name) == Some(v)
    ensures Declare([map[]] + scopes, name, v)[1..] == scopes
  {
    LookupAfterDeclare([map[]] + scopes, name, v);
  }

  /** The search of access_symtbl, scope by scope from the front. */
  method Access(scopes: seq<Scope>, name: string) returns (r: Option<Value>)
    ensures r == Lookup(scopes, name)
  {
    var i := 0;
    while i < |scopes|
      invariant 0 <= i <= |scopes|
      invariant forall j :: 0 <= j < i ==> name !in scopes[j]
    {
      if name in scopes[i] {
        r := Some(scopes[i][name]);
        FirstBindingIsLookup(scopes, name, i);
        return;
      }
      i := i + 1;
    }
    r := None;
  }

  lemma {:induction false} FirstBindingIsLookup(scopes: seq<Scope>, name: string, i: nat)
    requires i < |scopes| && name in scopes[i]
    requires forall j :: 0 <= j < i ==> name !in scopes[j]
    ensures Lookup(scopes, name) == Some(scopes[i][name])
  {
    if i > 0 {
      FirstBindingIsLookup(scopes[1..], name, i - 1);
    }
  }

  /** symtbl: the list of scopes that the compiler updates in place. */
  class SymbolTable {
    var scopes: seq<Scope>

    constructor (global: Scope)
      ensures scopes == [global]
    {
      scopes := [global];
    }

    /** symtbl.push_front(symbol_table()) */
    method PushFront()
      modifies this
      ensures scopes == [map[]] + old(scopes)
    {
      scopes := [map[]] + scopes;
    }

    /** symtbl.pop_front() */
    method PopFront()
      requires |scopes| > 0
      modifies this
      ensures scopes == old(scopes)[1..]
    {
      scopes := scopes[1..];
    }

    /** symtbl.front().insert(...) */
    method Insert(name: string, v: Value)
      requires |scopes| > 0
      modifies this
      ensures scopes == Declare(old(scopes), name, v)
    {
      if name !in scopes[0] {
        scopes := scopes[0 := scopes[0][name := v]];
      }
    }

    /** access_symtbl(name) */
    method Find(name: string) returns (r: Option<Value>)
      ensures r == Lookup(scopes, name)
    {
      r := Access(scopes, name);
    }
  }
}

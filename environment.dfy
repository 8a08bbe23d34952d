/**
 * src/environment/Environment.java. A run of the interpreter creates a tree of
 * Environment objects, each pointing at its parent. The model keeps every
 * object of a run in a `Store`, a sequence of `Scope`s, and a parent
 * reference is the index of an earlier entry: an object is always created
 * after its parent, so following parents always reaches a root.
 */
module Environment {
  import opened JavaInt
  import opened Ast

  /** The three fields of one Environment object (Environment.java:15-17). */
  datatype Scope = Scope(variables: map<string, i32>, procedures: map<string, ProcedureDeclaration>, parent: Option<nat>)

  /** Every Environment object of a run, indexed in creation order. */
  type Store = seq<Scope>

  /** Every parent was created before its child. */
  predicate WellFormed(st: Store)
  {
    forall i :: 0 <= i < |st| ==> st[i].parent.None? || st[i].parent.value < i
  }

  /** `e` names an object of a well-formed store. */
  predicate Fits(st: Store, e: nat)
  {
    WellFormed(st) && e < |st|
  }

  /**
   * `b` is `a` after some run: every object of `a` still exists with the
   * same parent, and new ones may have been created.
   */
  predicate Extends(a: Store, b: Store)
  {
    WellFormed(b) && |a| <= |b| && forall i :: 0 <= i < |a| ==> b[i].parent == a[i].parent
  }

  /**
   * Environment.java:24-29 (no parent) and 38-43 (with a parent): a new
   * object with empty maps, appended to the store; its index is the old size.
   */
  function Allocate(st: Store, parent: Option<nat>): (r: Store)
    requires WellFormed(st) && (parent.Some? ==> parent.value < |st|)
    ensures Fits(r, |st|) && Extends(st, r) && r[..|st|] == st
  {
    st + [Scope(map[], map[], parent)]
  }

  /** The object `e` followed by its ancestors, innermost first. */
  function Chain(st: Store, e: nat): (c: seq<nat>)
    requires Fits(st, e)
    ensures |c| > 0 && c[0] == e
    ensures forall k :: 0 <= k < |c| ==> c[k] < |st|
    ensures st[c[|c| - 1]].parent.None?
    decreases e
  {
    if st[e].parent.None? then [e] else [e] + Chain(st, st[e].parent.value)
  }

  /** The root that `e`'s parents lead to. */
  function RootOf(st: Store, e: nat): (r: nat)
    requires Fits(st, e)
    ensures r < |st| && st[r].parent.None?
    decreases e
  {
    if st[e].parent.None? then e else RootOf(st, st[e].parent.value)
  }

  /**
   * Environment.java:84-91: the local binding, else the parent's answer.
   * `None` where Java dereferences the missing parent of the root.
   */
  function Lookup(st: Store, e: nat, x: string): Option<i32>
    requires Fits(st, e)
    decreases e
  {
    if x in st[e].variables then Some(st[e].variables[x])
    else if st[e].parent.None? then None
    else Lookup(st, st[e].parent.value, x)
  }

  /** Environment.java:73-76: bind `x` in `e` itself. */
  function Declare(st: Store, e: nat, x: string, v: i32): (r: Store)
    requires Fits(st, e)
    ensures Fits(r, e) && |r| == |st| && Extends(st, r)
  {
    st[e := st[e].(variables := st[e].variables[x := v])]
  }

  /**
   * Environment.java:59-66: write into the parent only when `e` has no
   * binding of `x` and its immediate parent has one, else bind in `e`.
   */
  function Assign(st: Store, e: nat, x: string, v: i32): (r: Store)
    requires Fits(st, e)
    ensures Fits(r, e) && |r| == |st| && Extends(st, r)
    decreases e
  {
    var s := st[e];
    if x !in s.variables && s.parent.Some? && x in st[s.parent.value].variables then
      Assign(st, s.parent.value, x, v)
    else
      Declare(st, e, x, v)
  }

  /** Environment.java:99-109: hand the declaration up to the root, which stores it. */
  function Register(st: Store, e: nat, name: string, d: ProcedureDeclaration): (r: Store)
    requires Fits(st, e)
    ensures Fits(r, e) && |r| == |st| && Extends(st, r)
    decreases e
  {
    if st[e].parent.Some? then Register(st, st[e].parent.value, name, d)
    else st[e := st[e].(procedures := st[e].procedures[name := d])]
  }

  /** Environment.java:116-123: ask the root; `None` where Java returns null. */
  function FindProcedure(st: Store, e: nat, name: string): Option<ProcedureDeclaration>
    requires Fits(st, e)
    decreases e
  {
    if st[e].parent.Some? then FindProcedure(st, st[e].parent.value, name)
    else if name in st[e].procedures then Some(st[e].procedures[name])
    else None
  }

  /** The object whose map `Assign(st, e, x, v)` writes into. */
  function WriteTarget(st: Store, e: nat, x: string): nat
    requires Fits(st, e)
  {
    var s := st[e];
    if x !in s.variables && s.parent.Some? && x in st[s.parent.value].variables then s.parent.value else e
  }

  // ---------------------------------------------------------------------------
  // Properties of the lookup rules
  // ---------------------------------------------------------------------------

  /** No object on the chain of parents binds `x`. */
  predicate Unbound(st: Store, c: seq<nat>, x: string)
    requires forall k :: 0 <= k < |c| ==> c[k] < |st|
  {
    forall k :: 0 <= k < |c| ==> x !in st[c[k]].variables
  }

  /** Lookup fails exactly when no object on the chain of parents binds `x`. */
  lemma {:induction false} LookupFails(st: Store, e: nat, x: string)
    requires Fits(st, e)
    ensures Lookup(st, e, x).None? <==> Unbound(st, Chain(st, e), x)
    decreases e
  {
    var c := Chain(st, e);
    if x in st[e].variables {
      assert x in st[c[0]].variables;
    } else if st[e].parent.Some? {
      var p := st[e].parent.value;
      LookupFails(st, p, x);
      var cp := Chain(st, p);
      assert c == [e] + cp;
      if Unbound(st, cp, x) {
        forall k | 0 <= k < |c| ensures x !in st[c[k]].variables {
          if k > 0 { assert c[k] == cp[k - 1]; }
        }
      } else {
        var k :| 0 <= k < |cp| && x in st[cp[k]].variables;
        assert c[k + 1] == cp[k];
      }
    } else {
      assert c == [e];
    }
  }

  /**
   * A successful lookup returns the binding of the innermost object on the
   * chain of parents that binds `x`.
   */
  lemma {:induction false} LookupInnermost(st: Store, e: nat, x: string)
    requires Fits(st, e) && Lookup(st, e, x).Some?
    ensures exists k ::
      && 0 <= k < |Chain(st, e)| && x in st[Chain(st, e)[k]].variables
      && Lookup(st, e, x).value == st[Chain(st, e)[k]].variables[x]
      && Unbound(st, Chain(st, e)[..k], x)
    decreases e
  {
    var c := Chain(st, e);
    if x in st[e].variables {
      assert x in st[c[0]].variables && Unbound(st, c[..0], x);
    } else {
      var p := st[e].parent.value;
      LookupInnermost(st, p, x);
      var cp := Chain(st, p);
      assert c == [e] + cp;
      var k :| 0 <= k < |cp| && x in st[cp[k]].variables
        && Lookup(st, p, x).value == st[cp[k]].variables[x]
        && Unbound(st, cp[..k], x);
      assert c[k + 1] == cp[k];
      assert c[..k + 1] == [e] + cp[..k];
      var pre := c[..k + 1];
      assert Unbound(st, pre, x) by {
        forall j | 0 <= j < |pre| ensures x !in st[pre[j]].variables {
          if j > 0 { assert pre[j] == cp[..k][j - 1]; }
        }
      }
    }
  }

  /** The root is the last object of the chain of parents. */
  lemma {:induction false} RootEndsChain(st: Store, e: nat)
    requires Fits(st, e)
    ensures RootOf(st, e) == Chain(st, e)[|Chain(st, e)| - 1]
    decreases e
  {
    if st[e].parent.Some? {
      RootEndsChain(st, st[e].parent.value);
    }
  }

  /** A new object sees exactly what its parent sees; objects that already existed see what they saw. */
  lemma {:induction false} AllocateLookup(st: Store, parent: Option<nat>, e: nat, x: string)
    requires WellFormed(st) && (parent.Some? ==> parent.value < |st|) && e <= |st|
    ensures e < |st| ==> Lookup(Allocate(st, parent), e, x) == Lookup(st, e, x)
    ensures e == |st| ==> Lookup(Allocate(st, parent), e, x) == if parent.Some? then Lookup(st, parent.value, x) else None
    decreases e
  {
    var r := Allocate(st, parent);
    if e == |st| {
      if parent.Some? { AllocateLookup(st, parent, parent.value, x); }
    } else {
      assert r[e] == st[e];
      if x !in st[e].variables && st[e].parent.Some? {
        AllocateLookup(st, parent, st[e].parent.value, x);
      }
    }
  }

  // ---------------------------------------------------------------------------
  // Properties of the update rules
  // ---------------------------------------------------------------------------

  /** setVariable is declareVariable on the object `WriteTarget` picks, which is `e` or its immediate parent. */
  lemma AssignWritesTarget(st: Store, e: nat, x: string, v: i32)
    requires Fits(st, e)
    ensures WriteTarget(st, e, x) == e || Some(WriteTarget(st, e, x)) == st[e].parent
    ensures Assign(st, e, x, v) == Declare(st, WriteTarget(st, e, x), x, v)
  {
    var s := st[e];
    if x !in s.variables && s.parent.Some? && x in st[s.parent.value].variables {
      assert x in st[s.parent.value].variables;
    }
  }

  /** Reading a variable right after setting it, from the same object, gives the value set. */
  lemma AssignThenLookup(st: Store, e: nat, x: string, v: i32)
    requires Fits(st, e)
    ensures Lookup(Assign(st, e, x, v), e, x) == Some(v)
  {
    AssignWritesTarget(st, e, x, v);
    var r := Assign(st, e, x, v);
    if WriteTarget(st, e, x) != e {
      assert x !in r[e].variables;
    }
  }

  /** Reading a variable right after declaring it, from the same object, gives the value declared. */
  lemma DeclareThenLookup(st: Store, e: nat, x: string, v: i32)
    requires Fits(st, e)
    ensures Lookup(Declare(st, e, x, v), e, x) == Some(v)
  {
  }

  /** Binding `x` anywhere leaves every lookup of every other name unchanged. */
  lemma {:induction false} DeclareFrame(st: Store, t: nat, x: string, v: i32, e: nat, y: string)
    requires Fits(st, t) && e < |st| && y != x
    ensures Lookup(Declare(st, t, x, v), e, y) == Lookup(st, e, y)
    decreases e
  {
    var r := Declare(st, t, x, v);
    assert r[e].parent == st[e].parent;
    assert (y in r[e].variables) == (y in st[e].variables);
    if y !in st[e].variables && st[e].parent.Some? {
      DeclareFrame(st, t, x, v, st[e].parent.value, y);
    }
  }

  /** setVariable leaves every lookup of every other name, from every object, unchanged. */
  lemma AssignFrame(st: Store, e: nat, x: string, v: i32, e': nat, y: string)
    requires Fits(st, e) && e' < |st| && y != x
    ensures Lookup(Assign(st, e, x, v), e', y) == Lookup(st, e', y)
  {
    AssignWritesTarget(st, e, x, v);
    DeclareFrame(st, WriteTarget(st, e, x), x, v, e', y);
  }

  /** setVariable and declareVariable keep every parent and every procedure table. */
  lemma DeclareKeepsShape(st: Store, t: nat, x: string, v: i32)
    requires Fits(st, t)
    ensures forall i :: 0 <= i < |st| ==>
      Declare(st, t, x, v)[i].parent == st[i].parent && Declare(st, t, x, v)[i].procedures == st[i].procedures
  {
  }

  // ---------------------------------------------------------------------------
  // Properties of the procedure table
  // ---------------------------------------------------------------------------

  /** setProcedure writes into the root's table, whichever object it is called on, and nothing else. */
  lemma {:induction false} RegisterAtRoot(st: Store, e: nat, name: string, d: ProcedureDeclaration)
    requires Fits(st, e)
    ensures var root := RootOf(st, e);
      Register(st, e, name, d) == st[root := st[root].(procedures := st[root].procedures[name := d])]
    decreases e
  {
    if st[e].parent.Some? {
      RegisterAtRoot(st, st[e].parent.value, name, d);
    }
  }

  /** getProcedure reads the root's table, whichever object it is called on. */
  lemma {:induction false} FindAtRoot(st: Store, e: nat, name: string)
    requires Fits(st, e)
    ensures var root := RootOf(st, e);
      FindProcedure(st, e, name) == if name in st[root].procedures then Some(st[root].procedures[name]) else None
    decreases e
  {
    if st[e].parent.Some? {
      FindAtRoot(st, st[e].parent.value, name);
    }
  }

  /** Every object of a store reaches the same root after `Register` as before. */
  lemma {:induction false} RegisterKeepsRoots(st: Store, t: nat, name: string, d: ProcedureDeclaration, e: nat)
    requires Fits(st, t) && e < |st|
    ensures RootOf(Register(st, t, name, d), e) == RootOf(st, e)
    decreases e
  {
    RegisterAtRoot(st, t, name, d);
    if st[e].parent.Some? {
      RegisterKeepsRoots(st, t, name, d, st[e].parent.value);
    }
  }

  /**
   * A procedure registered from any object is found from every object that
   * shares its root, the latest registration of a name replacing earlier ones.
   */
  lemma RegisterThenFind(st: Store, t: nat, name: string, d: ProcedureDeclaration, e: nat)
    requires Fits(st, t) && e < |st| && RootOf(st, e) == RootOf(st, t)
    ensures FindProcedure(Register(st, t, name, d), e, name) == Some(d)
  {
    RegisterAtRoot(st, t, name, d);
    RegisterKeepsRoots(st, t, name, d, e);
    FindAtRoot(Register(st, t, name, d), e, name);
  }

  /** Registering a procedure changes no variable binding and no parent. */
  lemma RegisterKeepsVariables(st: Store, t: nat, name: string, d: ProcedureDeclaration)
    requires Fits(st, t)
    ensures forall i :: 0 <= i < |st| ==>
      Register(st, t, name, d)[i].variables == st[i].variables && Register(st, t, name, d)[i].parent == st[i].parent
  {
    RegisterAtRoot(st, t, name, d);
  }

  /** The Environment objects of a run, updated in place as the Java methods do. */
  class Environments {
    var scopes: Store

    /** No object exists yet. */
    constructor ()
      ensures scopes == []
    {
      scopes := [];
    }

    /** Environment.java:24-29. */
    method NewRoot() returns (e: nat)
      requires WellFormed(scopes)
      modifies this
      ensures e == |old(scopes)| && scopes == Allocate(old(scopes), None)
    {
      e := |scopes|;
      scopes := scopes + [Scope(map[], map[], None)];
    }

    /** Environment.java:38-43. */
    method NewChild(parent: nat) returns (e: nat)
      requires Fits(scopes, parent)
      modifies this
      ensures e == |old(scopes)| && scopes == Allocate(old(scopes), Some(parent))
    {
      e := |scopes|;
      scopes := scopes + [Scope(map[], map[], Some(parent))];
    }

    /** Environment.java:59-66. */
    method SetVariable(e: nat, x: string, v: i32)
      requires Fits(scopes, e)
      modifies this
      ensures scopes == Assign(old(scopes), e, x, v)
      decreases e
    {
      var s := scopes[e];
      if x !in s.variables && s.parent.Some? && x in scopes[s.parent.value].variables {
        SetVariable(s.parent.value, x, v);
      } else {
        scopes := scopes[e := s.(variables := s.variables[x := v])];
      }
    }

    /** Environment.java:73-76. */
    method DeclareVariable(e: nat, x: string, v: i32)
      requires Fits(scopes, e)
      modifies this
      ensures scopes == Declare(old(scopes), e, x, v)
    {
      scopes := scopes[e := scopes[e].(variables := scopes[e].variables[x := v])];
    }

    /** Environment.java:84-91. */
    method GetVariable(e: nat, x: string) returns (r: Option<i32>)
      requires Fits(scopes, e)
      ensures r == Lookup(scopes, e, x)
      decreases e
    {
      if x in scopes[e].variables {
        return Some(scopes[e].variables[x]);
      }
      if scopes[e].parent.None? {
        return None;
      }
      r := GetVariable(scopes[e].parent.value, x);
    }

    /** Environment.java:99-109. */
    method SetProcedure(e: nat, name: string, d: ProcedureDeclaration)
      requires Fits(scopes, e)
      modifies this
      ensures scopes == Register(old(scopes), e, name, d)
      decreases e
    {
      if scopes[e].parent.Some? {
        SetProcedure(scopes[e].parent.value, name, d);
      } else {
        scopes := scopes[e := scopes[e].(procedures := scopes[e].procedures[name := d])];
      }
    }

    /** Environment.java:116-123. */
    method GetProcedure(e: nat, name: string) returns (r: Option<ProcedureDeclaration>)
      requires Fits(scopes, e)
      ensures r == FindProcedure(scopes, e, name)
      decreases e
    {
      if scopes[e].parent.Some? {
        r := GetProcedure(scopes[e].parent.value, name);
      } else if name in scopes[e].procedures {
        r := Some(scopes[e].procedures[name]);
      } else {
        r := None;
      }
    }
  }
}

/**
 * The resource binder: a registry of binding types and of the bindings made
 * against them. The state transitions are first given as functions of the
 * registry state; the `ResourceBinder` class performs them in place and is
 * proved to agree with them.
 */
module Binder {
  import opened Binding
  import opened Repository

  /** What `define` and `undefine` accept: a type name, a type, or anything else. */
  datatype TypeArgument = TypeName(name: string) | TypeInstance(bindingType: BindingType) | OtherValue

  datatype BinderError =
    | NoSuchType(typeName: string)  // bind: the type name is not defined
    | BindingFailed(path: string)   // bind: the store resolves the path to nothing
    | InvalidArgument               // define, undefine: neither a name nor a type

  datatype Outcome = Pass | Fail(error: BinderError)

  /** Defined binding types by name. */
  type TypeTable = map<string, BindingType>

  /** Every type is registered under its own name. */
  predicate NamesMatch(types: TypeTable)
  {
    forall n :: n in types ==> types[n].name == n
  }

  /** The type a name or type argument stands for; a bare name means a type without parameters. */
  function TypeOf(arg: TypeArgument): BindingType
    requires !arg.OtherValue?
  {
    match arg
    case TypeName(name) => BindingType(name, [])
    case TypeInstance(t) => t
  }

  // ---------------------------------------------------------------------------
  // Type management

  /** `define(arg)`: the type is registered under its name, replacing any earlier one; nothing else changes. */
  function DefineType(types: TypeTable, arg: TypeArgument): (r: (Outcome, TypeTable))
    ensures r.0.Pass? <==> !arg.OtherValue?
    ensures r.0.Fail? ==> r == (Fail(InvalidArgument), types)
    ensures r.0.Pass? ==> TypeOf(arg).name in r.1 && r.1[TypeOf(arg).name] == TypeOf(arg)
    ensures r.0.Pass? ==> forall n :: n != TypeOf(arg).name ==>
      (n in r.1 <==> n in types) && (n in types ==> r.1[n] == types[n])
  {
    if arg.OtherValue? then (Fail(InvalidArgument), types)
    else (Pass, types[TypeOf(arg).name := TypeOf(arg)])
  }

  /** `undefine(arg)`: the name is no longer defined, other types stay; an unknown name is no error. */
  function UndefineType(types: TypeTable, arg: TypeArgument): (r: (Outcome, TypeTable))
    ensures r.0.Pass? <==> !arg.OtherValue?
    ensures r.0.Fail? ==> r == (Fail(InvalidArgument), types)
    ensures r.0.Pass? ==> TypeOf(arg).name !in r.1
    ensures r.0.Pass? ==> forall n :: n != TypeOf(arg).name ==>
      (n in r.1 <==> n in types) && (n in types ==> r.1[n] == types[n])
    ensures r.0.Pass? && TypeOf(arg).name !in types ==> r.1 == types
  {
    if arg.OtherValue? then (Fail(InvalidArgument), types)
    else (Pass, types - {TypeOf(arg).name})
  }

  // ---------------------------------------------------------------------------
  // Binding lifecycle

  /** Some stored binding equals `b`. */
  predicate Contains(bindings: seq<ResourceBinding>, b: ResourceBinding)
  {
    exists i :: 0 <= i < |bindings| && SameBinding(bindings[i], b)
  }

  /** No two stored bindings are equal. */
  ghost predicate DuplicateFree(bindings: seq<ResourceBinding>)
  {
    forall i, j :: 0 <= i < j < |bindings| ==> !SameBinding(bindings[i], bindings[j])
  }

  /** A sequence with `b` in front is duplicate-free when its rest is and holds nothing equal to `b`. */
  lemma DuplicateFreeCons(b: ResourceBinding, rest: seq<ResourceBinding>)
    ensures DuplicateFree([b] + rest) <==> DuplicateFree(rest) && forall c :: c in rest ==> !SameBinding(b, c)
  {
    var s := [b] + rest;
    assert forall i :: 0 <= i < |rest| ==> s[i + 1] == rest[i];
    if DuplicateFree(s) {
      forall c | c in rest
        ensures !SameBinding(b, c)
      {
        var j :| 0 <= j < |rest| && rest[j] == c;
        assert s[0] == b && s[j + 1] == c;
      }
      forall i, j | 0 <= i < j < |rest|
        ensures !SameBinding(rest[i], rest[j])
      {
        assert s[i + 1] == rest[i] && s[j + 1] == rest[j];
      }
    }
    if DuplicateFree(rest) && forall c :: c in rest ==> !SameBinding(b, c) {
      forall i, j | 0 <= i < j < |s|
        ensures !SameBinding(s[i], s[j])
      {
        assert s[j] == rest[j - 1];
        if i == 0 {
          assert s[j] in rest;
        } else {
          assert s[i] == rest[i - 1];
        }
      }
    }
  }

  /** The binding `bind(path, typeName, supplied)` asks for, once the type and the resources are known. */
  function Requested(t: BindingType, resolved: set<string>, path: string, supplied: Parameters): ResourceBinding
  {
    ResourceBinding(path, t, Normalize(t, supplied), resolved)
  }

  /**
   * `bind(path, typeName, supplied)`, where `resolved` is the store's answer for
   * `path`: an undefined type and an empty answer are errors that change
   * nothing; otherwise the requested binding is stored unless an equal one is.
   */
  function AddBinding(types: TypeTable, bindings: seq<ResourceBinding>, resolved: set<string>,
                      path: string, typeName: string, supplied: Parameters): (r: (Outcome, seq<ResourceBinding>))
    ensures typeName !in types ==> r == (Fail(NoSuchType(typeName)), bindings)
    ensures typeName in types && resolved == {} ==> r == (Fail(BindingFailed(path)), bindings)
    ensures r.0.Pass? <==> typeName in types && resolved != {}
    ensures r.0.Pass? ==>
      var b := Requested(types[typeName], resolved, path, supplied);
      && |bindings| <= |r.1| <= |bindings| + 1
      && r.1[..|bindings|] == bindings
      && Contains(r.1, b)
      && (Contains(bindings, b) ==> r.1 == bindings)
      && (!Contains(bindings, b) ==> r.1 == bindings + [b])
  {
    if typeName !in types then (Fail(NoSuchType(typeName)), bindings)
    else if resolved == {} then (Fail(BindingFailed(path)), bindings)
    else
      var b := Requested(types[typeName], resolved, path, supplied);
      if Contains(bindings, b) then (Pass, bindings)
      else
        assert SameBinding((bindings + [b])[|bindings|], b);
        (Pass, bindings + [b])
  }

  /** `unbind(path, typeName)` removes `b`: its stored path is exactly `path`, and its type is `typeName` when one is given. */
  predicate Unbinds(b: ResourceBinding, path: string, typeName: Option<string>)
  {
    b.path == path && (typeName.None? || b.bindingType.name == typeName.value)
  }

  /** `unbind(path, typeName)`: the stored bindings it leaves, in their order. */
  function RemoveBindings(bindings: seq<ResourceBinding>, path: string, typeName: Option<string>): (r: seq<ResourceBinding>)
    ensures forall b :: b in r <==> b in bindings && !Unbinds(b, path, typeName)
    ensures |r| <= |bindings|
    ensures (forall i :: 0 <= i < |bindings| ==> !Unbinds(bindings[i], path, typeName)) ==> r == bindings
  {
    if bindings == [] then []
    else
      var rest := RemoveBindings(bindings[1..], path, typeName);
      if Unbinds(bindings[0], path, typeName) then rest
      else [bindings[0]] + rest
  }

  /** A bind never stores a second binding equal to one already stored. */
  lemma AddBindingKeepsDuplicateFree(types: TypeTable, bindings: seq<ResourceBinding>, resolved: set<string>,
                                     path: string, typeName: string, supplied: Parameters)
    requires DuplicateFree(bindings)
    ensures DuplicateFree(AddBinding(types, bindings, resolved, path, typeName, supplied).1)
  {
    var r := AddBinding(types, bindings, resolved, path, typeName, supplied);
    if r.0.Pass? && r.1 != bindings {
      var b := Requested(types[typeName], resolved, path, supplied);
      assert r.1 == bindings + [b];
      forall i, j | 0 <= i < j < |r.1|
        ensures !SameBinding(r.1[i], r.1[j])
      {
        if j == |bindings| {
          assert !SameBinding(bindings[i], b);
        } else {
          assert r.1[i] == bindings[i] && r.1[j] == bindings[j];
        }
      }
    }
  }

  /** An unbind keeps the stored bindings pairwise unequal. */
  lemma {:induction false} RemoveBindingsKeepsDuplicateFree(bindings: seq<ResourceBinding>, path: string, typeName: Option<string>)
    requires DuplicateFree(bindings)
    ensures DuplicateFree(RemoveBindings(bindings, path, typeName))
  {
    if bindings != [] {
      var rest := RemoveBindings(bindings[1..], path, typeName);
      assert bindings == [bindings[0]] + bindings[1..];
      DuplicateFreeCons(bindings[0], bindings[1..]);
      RemoveBindingsKeepsDuplicateFree(bindings[1..], path, typeName);
      if !Unbinds(bindings[0], path, typeName) {
        DuplicateFreeCons(bindings[0], rest);
      }
    }
  }

  /** `find(typeName)`: the stored bindings of that type, in their order. */
  function OfType(bindings: seq<ResourceBinding>, typeName: string): (r: seq<ResourceBinding>)
    ensures forall b :: b in r <==> b in bindings && b.bindingType.name == typeName
    ensures |r| <= |bindings|
  {
    if bindings == [] then []
    else
      var rest := OfType(bindings[1..], typeName);
      if bindings[0].bindingType.name == typeName then [bindings[0]] + rest else rest
  }

  /** `getBindings(path)`: the stored bindings whose resources include `path`, in their order. */
  function Covering(bindings: seq<ResourceBinding>, path: string): (r: seq<ResourceBinding>)
    ensures forall b :: b in r <==> b in bindings && path in b.resources
    ensures |r| <= |bindings|
  {
    if bindings == [] then []
    else
      var rest := Covering(bindings[1..], path);
      if path in bindings[0].resources then [bindings[0]] + rest else rest
  }

  /** A binding stored after others is found after them. */
  lemma {:induction false} OfTypeAppend(a: seq<ResourceBinding>, b: seq<ResourceBinding>, typeName: string)
    ensures OfType(a + b, typeName) == OfType(a, typeName) + OfType(b, typeName)
  {
    if a != [] {
      assert (a + b)[1..] == a[1..] + b;
      OfTypeAppend(a[1..], b, typeName);
    } else {
      assert a + b == b;
    }
  }

  /** A binding stored after others is listed after them. */
  lemma {:induction false} CoveringAppend(a: seq<ResourceBinding>, b: seq<ResourceBinding>, path: string)
    ensures Covering(a + b, path) == Covering(a, path) + Covering(b, path)
  {
    if a != [] {
      assert (a + b)[1..] == a[1..] + b;
      CoveringAppend(a[1..], b, path);
    } else {
      assert a + b == b;
    }
  }

  /** Finding a type after an unbind is the same as unbinding from what was found for it. */
  lemma {:induction false} FindAfterUnbind(bindings: seq<ResourceBinding>, path: string, typeName: Option<string>, t: string)
    ensures OfType(RemoveBindings(bindings, path, typeName), t) == RemoveBindings(OfType(bindings, t), path, typeName)
  {
    if bindings != [] {
      FindAfterUnbind(bindings[1..], path, typeName, t);
    }
  }

  /** Listing a path after an unbind is the same as unbinding from what was listed for it. */
  lemma {:induction false} CoveringAfterUnbind(bindings: seq<ResourceBinding>, path: string, typeName: Option<string>, p: string)
    ensures Covering(RemoveBindings(bindings, path, typeName), p) == RemoveBindings(Covering(bindings, p), path, typeName)
  {
    if bindings != [] {
      CoveringAfterUnbind(bindings[1..], path, typeName, p);
    }
  }

  /**
   * Binding again with parameters that normalise to the same values, while the
   * store still resolves the path, stores nothing new.
   */
  lemma BindIsIdempotent(types: TypeTable, bindings: seq<ResourceBinding>, resolved: set<string>, again: set<string>,
                         path: string, typeName: string, supplied: Parameters, suppliedAgain: Parameters)
    requires typeName in types && resolved != {} && again != {}
    requires Normalize(types[typeName], supplied) == Normalize(types[typeName], suppliedAgain)
    ensures var first := AddBinding(types, bindings, resolved, path, typeName, supplied);
      AddBinding(types, first.1, again, path, typeName, suppliedAgain) == (Pass, first.1)
  {
    var first := AddBinding(types, bindings, resolved, path, typeName, supplied);
    var b := Requested(types[typeName], resolved, path, supplied);
    var b' := Requested(types[typeName], again, path, suppliedAgain);
    var i :| 0 <= i < |first.1| && SameBinding(first.1[i], b);
    assert SameBinding(first.1[i], b');
  }

  /** Unbinding twice removes nothing the first unbind left. */
  lemma UnbindIsIdempotent(bindings: seq<ResourceBinding>, path: string, typeName: Option<string>)
    ensures RemoveBindings(RemoveBindings(bindings, path, typeName), path, typeName) == RemoveBindings(bindings, path, typeName)
  {
    var r := RemoveBindings(bindings, path, typeName);
    assert forall i :: 0 <= i < |r| ==> r[i] in r;
  }

  /**
   * A bind that succeeds is visible to `find(typeName)`; when it stored a new
   * binding, that binding, with the resources the store answered, is also
   * listed under every one of those resources. A repeated bind stores nothing,
   * so the earlier binding keeps the resources it was made with.
   */
  lemma BoundIsFound(types: TypeTable, bindings: seq<ResourceBinding>, resolved: set<string>,
                     path: string, typeName: string, supplied: Parameters)
    requires NamesMatch(types)
    ensures var r := AddBinding(types, bindings, resolved, path, typeName, supplied);
      r.0.Pass? ==> Contains(OfType(r.1, typeName), Requested(types[typeName], resolved, path, supplied))
    ensures var r := AddBinding(types, bindings, resolved, path, typeName, supplied);
      r.0.Pass? ==> var b := Requested(types[typeName], resolved, path, supplied);
        !Contains(bindings, b) ==> b in OfType(r.1, typeName) && forall p :: p in resolved ==> b in Covering(r.1, p)
  {
    var r := AddBinding(types, bindings, resolved, path, typeName, supplied);
    if r.0.Pass? {
      var b := Requested(types[typeName], resolved, path, supplied);
      var i :| 0 <= i < |r.1| && SameBinding(r.1[i], b);
      var found := OfType(r.1, typeName);
      assert r.1[i] in r.1;
      assert r.1[i] in found;
      var j :| 0 <= j < |found| && found[j] == r.1[i];
      assert SameBinding(found[j], b);
      if !Contains(bindings, b) {
        assert r.1[|bindings|] == b;
        assert b in r.1;
      }
    }
  }

  // ---------------------------------------------------------------------------
  // The registry object

  class ResourceBinder {
    const repo: ResourceRepository
    var types: TypeTable
    var bindings: seq<ResourceBinding>

    /**
     * Every type is registered under its own name, and the stored bindings are
     * pairwise unequal and each resolved to at least one resource.
     */
    ghost predicate Valid()
      reads this
    {
      && NamesMatch(types)
      && DuplicateFree(bindings)
      && forall b :: b in bindings ==> b.resources != {}
    }

    constructor (repo: ResourceRepository)
      ensures Valid() && this.repo == repo && types == map[] && bindings == []
    {
      this.repo := repo;
      types := map[];
      bindings := [];
    }

    method Define(arg: TypeArgument) returns (r: Outcome)
      requires Valid()
      modifies this`types
      ensures Valid() && (r, types) == DefineType(old(types), arg)
    {
      var next := DefineType(types, arg);
      r, types := next.0, next.1;
    }

    /** Leaves existing bindings of the type in place. */
    method Undefine(arg: TypeArgument) returns (r: Outcome)
      requires Valid()
      modifies this`types
      ensures Valid() && (r, types) == UndefineType(old(types), arg)
    {
      var next := UndefineType(types, arg);
      r, types := next.0, next.1;
    }

    method IsDefined(typeName: string) returns (defined: bool)
      ensures defined <==> typeName in types
    {
      defined := typeName in types;
    }

    /** Asks the store about `path` only once the type is known to be defined. */
    method Bind(path: string, typeName: string, supplied: Parameters) returns (r: Outcome)
      requires Valid()
      modifies this`bindings, repo`queries
      ensures Valid()
      ensures (r, bindings) == AddBinding(types, old(bindings), repo.Resolve(path), path, typeName, supplied)
      ensures repo.queries == old(repo.queries) + (if typeName in types then 1 else 0)
    {
      if typeName !in types {
        return Fail(NoSuchType(typeName));
      }
      var resources := repo.Find(path);
      AddBindingKeepsDuplicateFree(types, bindings, resources, path, typeName, supplied);
      var next := AddBinding(types, bindings, resources, path, typeName, supplied);
      r, bindings := next.0, next.1;
    }

    /** `typeName` is `None` when the caller names no type. */
    method Unbind(path: string, typeName: Option<string>)
      requires Valid()
      modifies this`bindings
      ensures Valid() && bindings == RemoveBindings(old(bindings), path, typeName)
    {
      RemoveBindingsKeepsDuplicateFree(bindings, path, typeName);
      bindings := RemoveBindings(bindings, path, typeName);
    }

    method Find(typeName: string) returns (r: seq<ResourceBinding>)
      ensures r == OfType(bindings, typeName)
    {
      r := OfType(bindings, typeName);
    }

    /** `path` is `None` when the caller names no path. */
    method GetBindings(path: Option<string>) returns (r: seq<ResourceBinding>)
      ensures path.None? ==> r == bindings
      ensures path.Some? ==> r == Covering(bindings, path.value)
    {
      r := if path.None? then bindings else Covering(bindings, path.value);
    }
  }
}

/**
 * Binding types, their parameters, the bindings the registry stores, and the
 * lazy binding that resolves its resources from the store on first demand and
 * keeps them.
 */
module Binding {
  import Repository

  datatype Option<+T> = None | Some(value: T)

  /** One declared parameter of a binding type, with its default value if it has one. */
  datatype BindingParameter = BindingParameter(name: string, defaultValue: Option<string>)

  /** A named binding type and the parameters it declares. */
  datatype BindingType = BindingType(name: string, parameters: seq<BindingParameter>)

  /** Parameter values by parameter name. */
  type Parameters = map<string, string>

  /** No two declared parameters share a name. */
  predicate UniqueNames(ps: seq<BindingParameter>)
  {
    forall i, j :: 0 <= i < j < |ps| ==> ps[i].name != ps[j].name
  }

  /** The default value of every declared parameter that has one. */
  function Defaults(ps: seq<BindingParameter>): Parameters
  {
    if ps == [] then map[]
    else
      var rest := Defaults(ps[1..]);
      match ps[0].defaultValue
      case Some(v) => rest[ps[0].name := v]
      case None => rest
  }

  /**
   * Only declared parameters have defaults, and with unique names each
   * parameter that declares a default gets exactly that value.
   */
  lemma {:induction false} DefaultsAreDeclared(ps: seq<BindingParameter>)
    ensures forall k :: k in Defaults(ps) ==> exists i :: 0 <= i < |ps| && ps[i].name == k && ps[i].defaultValue.Some?
    ensures UniqueNames(ps) ==>
      forall i :: 0 <= i < |ps| && ps[i].defaultValue.Some? ==>
        ps[i].name in Defaults(ps) && Defaults(ps)[ps[i].name] == ps[i].defaultValue.value
  {
    if ps != [] {
      DefaultsAreDeclared(ps[1..]);
      assert UniqueNames(ps) ==> UniqueNames(ps[1..]);
      forall k | k in Defaults(ps)
        ensures exists i :: 0 <= i < |ps| && ps[i].name == k && ps[i].defaultValue.Some?
      {
        if k != ps[0].name || ps[0].defaultValue.None? {
          assert k in Defaults(ps[1..]);
          var j :| 0 <= j < |ps[1..]| && ps[1..][j].name == k && ps[1..][j].defaultValue.Some?;
          assert ps[j + 1] == ps[1..][j];
        }
      }
      if UniqueNames(ps) {
        forall i | 0 <= i < |ps| && ps[i].defaultValue.Some?
          ensures ps[i].name in Defaults(ps) && Defaults(ps)[ps[i].name] == ps[i].defaultValue.value
        {
          if i > 0 {
            assert ps[1..][i - 1] == ps[i];
          }
        }
      }
    }
  }

  /**
   * The effective parameters of a binding of type `t`: every value the caller
   * supplied, and the declared default of each parameter the caller left out.
   */
  function Normalize(t: BindingType, supplied: Parameters): (r: Parameters)
    ensures r.Keys == supplied.Keys + Defaults(t.parameters).Keys
    ensures forall k :: k in supplied ==> r[k] == supplied[k]
    ensures forall k :: k in r && k !in supplied ==> r[k] == Defaults(t.parameters)[k]
  {
    Defaults(t.parameters) + supplied
  }

  /** Overriding a key with the value it already has in the base is the same as not overriding it. */
  lemma OverrideWithBaseValue(base: Parameters, supplied: Parameters, k: string)
    requires k in base
    ensures base + supplied[k := base[k]] == base + (supplied - {k})
  {
    var explicit, omitted := base + supplied[k := base[k]], base + (supplied - {k});
    assert explicit.Keys == omitted.Keys;
    forall j | j in explicit
      ensures explicit[j] == omitted[j]
    {
    }
  }

  /** Supplying a parameter's default value explicitly is the same as leaving the parameter out. */
  lemma SuppliedDefaultIsOmitted(t: BindingType, supplied: Parameters, k: string)
    requires k in Defaults(t.parameters)
    ensures Normalize(t, supplied[k := Defaults(t.parameters)[k]]) == Normalize(t, supplied - {k})
  {
    OverrideWithBaseValue(Defaults(t.parameters), supplied, k);
  }

  /**
   * A binding as the registry holds it: the path or selector it was made for,
   * its type, its effective parameters, and the paths of the resources the
   * store resolved the selector to when the binding was made.
   */
  datatype ResourceBinding = ResourceBinding(
    path: string,
    bindingType: BindingType,
    parameters: Parameters,
    resources: set<string>)

  /** Bindings are equal when path, type name and effective parameters agree; resources play no part. */
  predicate SameBinding(a: ResourceBinding, b: ResourceBinding)
  {
    a.path == b.path && a.bindingType.name == b.bindingType.name && a.parameters == b.parameters
  }

  /**
   * A binding whose resources are looked up in the store the first time they
   * are asked for and remembered from then on.
   */
  class LazyBinding {
    const path: string
    const bindingType: BindingType
    const parameters: Parameters
    const repo: Repository.ResourceRepository
    /** The remembered lookup result; `None` until the first request. */
    var resources: Option<set<string>>
    /** How many lookups this binding has made; bookkeeping for proofs only. */
    ghost var lookups: nat

    /** A binding has looked its resources up exactly when it remembers them, and then once. */
    ghost predicate Valid()
      reads this
    {
      lookups == if resources.Some? then 1 else 0
    }

    /** Records path, type, parameters and store; asks the store nothing. */
    constructor (path: string, repo: Repository.ResourceRepository, bindingType: BindingType, parameters: Parameters)
      ensures Valid() && resources == None && lookups == 0
      ensures this.path == path && this.bindingType == bindingType
      ensures this.parameters == parameters && this.repo == repo
      ensures repo.queries == old(repo.queries) && repo.paths == old(repo.paths)
    {
      this.path := path;
      this.bindingType := bindingType;
      this.parameters := parameters;
      this.repo := repo;
      resources := None;
      lookups := 0;
    }

    /**
     * The binding's resources. The first call looks the binding's own path up in
     * the store and remembers the answer; later calls return it without a lookup.
     */
    method GetResources() returns (r: set<string>)
      requires Valid()
      modifies this`resources, this`lookups, repo`queries
      ensures Valid() && resources == Some(r) && lookups <= 1
      ensures old(resources).Some? ==>
        r == old(resources).value && lookups == old(lookups) && repo.queries == old(repo.queries)
      ensures old(resources).None? ==>
        r == old(repo.Resolve(path)) && lookups == 1 && repo.queries == old(repo.queries) + 1
    {
      if resources.None? {
        var found := repo.Find(path);
        resources := Some(found);
        lookups := lookups + 1;
      }
      r := resources.value;
    }
  }

  /**
   * Two requests for a lazy binding's resources give the same answer even when
   * the store gains a resource in between, and the store is asked at most once.
   */
  method ResourcesAreStable(b: LazyBinding, added: string) returns (first: set<string>, second: set<string>)
    requires b.Valid()
    modifies b`resources, b`lookups, b.repo
    ensures b.Valid() && b.lookups <= 1
    ensures first == second
    ensures b.repo.queries <= old(b.repo.queries) + 1
    ensures old(b.resources).Some? ==> b.repo.queries == old(b.repo.queries)
  {
    first := b.GetResources();
    b.repo.Add(added);
    second := b.GetResources();
  }
}

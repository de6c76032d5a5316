/**
 * The binder's test cases replayed against the contracts of `ResourceBinder`:
 * each method builds a store and a binder, performs the same calls and proves
 * the counts the test expects.
 */
module BinderScenarios {
  import opened Binding
  import opened Repository
  import opened Binder

  /** Selector semantics for these scenarios: an exact path, or a prefix followed by a trailing `*`. */
  function Glob(selector: string, path: string): bool
  {
    selector == path || (|selector| > 0 && selector[|selector| - 1] == '*' && selector[..|selector| - 1] <= path)
  }

  /** Find and list over three stored bindings, one binding at a time. */
  lemma Queries3(x: ResourceBinding, y: ResourceBinding, z: ResourceBinding, typeName: string, path: string)
    ensures OfType([x, y, z], typeName) == OfType([x], typeName) + OfType([y], typeName) + OfType([z], typeName)
    ensures Covering([x, y, z], path) == Covering([x], path) + Covering([y], path) + Covering([z], path)
  {
    assert [x, y, z] == [x] + [y] + [z];
    OfTypeAppend([x] + [y], [z], typeName);
    OfTypeAppend([x], [y], typeName);
    CoveringAppend([x] + [y], [z], path);
    CoveringAppend([x], [y], path);
  }

  method BindFailsIfResourceNotFound()
  {
    var repo := new ResourceRepository(Glob);
    var binder := new ResourceBinder(repo);
    var _ := binder.Define(TypeName("type"));
    var r := binder.Bind("/foo", "type", map[]);
    assert repo.Resolve("/foo") == {};
    assert r == Fail(BindingFailed("/foo"));
  }

  method BindFailsIfTypeNotFound()
  {
    var repo := new ResourceRepository(Glob);
    repo.Add("/file");
    var binder := new ResourceBinder(repo);
    var r := binder.Bind("/file", "foo", map[]);
    assert r == Fail(NoSuchType("foo"));
  }

  /** The type of the duplicate test: one parameter, `param`, defaulting to `default`. */
  function ParamType(): BindingType
  {
    BindingType("type", [BindingParameter("param", Some("default"))])
  }

  /** Supplying `param => default` and supplying nothing give the same effective parameters. */
  lemma DefaultIsApplied()
    ensures Normalize(ParamType(), map["param" := "default"]) == Normalize(ParamType(), map[]) == map["param" := "default"]
  {
    var t := ParamType();
    assert Defaults(t.parameters)["param"] == "default";
    SuppliedDefaultIsOmitted(t, map[], "param");
    assert map[]["param" := "default"] == map["param" := "default"];
  }

  /** The first bind of the duplicate test stores a binding, the second stores nothing. */
  lemma DuplicateSteps()
    ensures var b := ResourceBinding("/file", ParamType(), map["param" := "default"], {"/file"});
      && AddBinding(map["type" := ParamType()], [], {"/file"}, "/file", "type", map["param" := "default"]) == (Pass, [b])
      && AddBinding(map["type" := ParamType()], [b], {"/file"}, "/file", "type", map[]) == (Pass, [b])
  {
    DefaultIsApplied();
  }

  method BindIgnoresDuplicates()
  {
    var repo := new ResourceRepository(Glob);
    repo.Add("/file");
    var binder := new ResourceBinder(repo);
    var _ := binder.Define(TypeInstance(ParamType()));
    assert binder.types == map["type" := ParamType()];
    OneFileResolve(repo, "/file");
    DuplicateSteps();
    ghost var b := ResourceBinding("/file", ParamType(), map["param" := "default"], {"/file"});
    var r1 := binder.Bind("/file", "type", map["param" := "default"]);
    assert binder.bindings == [b];
    var r2 := binder.Bind("/file", "type", map[]);
    assert binder.bindings == [b];
    assert r1 == Pass && r2 == Pass;
    var found := binder.Find("type");
    var all := binder.GetBindings(None);
    assert found == [b];
    assert |found| == 1 && |all| == 1;
  }

  /** A binding of a parameterless type, with no parameters. */
  function Plain(path: string, typeName: string, resources: set<string>): ResourceBinding
  {
    ResourceBinding(path, BindingType(typeName, []), map[], resources)
  }

  /** A store holding `/file1` and `/file2`, with a binder that defines `type1` and `type2`. */
  method TwoFilesTwoTypes() returns (repo: ResourceRepository, binder: ResourceBinder)
    ensures fresh(repo) && fresh(binder) && binder.repo == repo && binder.Valid()
    ensures repo.paths == {"/file1", "/file2"} && repo.matches == Glob
    ensures binder.types == TwoTypes()
    ensures binder.bindings == []
  {
    repo := new ResourceRepository(Glob);
    repo.Add("/file1");
    repo.Add("/file2");
    binder := new ResourceBinder(repo);
    var _ := binder.Define(TypeInstance(BindingType("type1", [])));
    var _ := binder.Define(TypeInstance(BindingType("type2", [])));
  }

  /** A store holding one resource answers its path with that resource alone. */
  lemma OneFileResolve(repo: ResourceRepository, path: string)
    requires repo.paths == {path} && repo.matches == Glob
    ensures repo.Resolve(path) == {path}
  {
    assert Glob(path, path);
  }

  /** What a store holding `/file1` and `/file2` answers for the selectors the tests bind. */
  lemma TwoFilesResolve(repo: ResourceRepository)
    requires repo.paths == {"/file1", "/file2"} && repo.matches == Glob
    ensures repo.Resolve("/file1") == {"/file1"}
    ensures repo.Resolve("/file2") == {"/file2"}
    ensures repo.Resolve("/file*") == {"/file1", "/file2"}
  {
    assert Glob("/file*", "/file1") && Glob("/file*", "/file2");
    assert !Glob("/file1", "/file2") && !Glob("/file2", "/file1");
  }

  /** The bindings of the unbind-by-path tests: `/file1` to `type1` and `type2`, `/file2` to `type1`. */
  function FileFixture(): seq<ResourceBinding>
  {
    [Plain("/file1", "type1", {"/file1"}), Plain("/file1", "type2", {"/file1"}), Plain("/file2", "type1", {"/file2"})]
  }

  /** The bindings of the selector test: `/file1` to `type1`, `/file2` to `type2`, `/file*` to `type1`. */
  function SelectorFixture(): seq<ResourceBinding>
  {
    [Plain("/file1", "type1", {"/file1"}), Plain("/file2", "type2", {"/file2"}), Plain("/file*", "type1", {"/file1", "/file2"})]
  }

  /** The types `type1` and `type2`, both without parameters. */
  function TwoTypes(): TypeTable
  {
    map["type1" := BindingType("type1", []), "type2" := BindingType("type2", [])]
  }

  /** Each bind of the unbind-by-path fixture stores a new binding. */
  lemma FileFixtureSteps()
    ensures var f := FileFixture();
      && AddBinding(TwoTypes(), [], {"/file1"}, "/file1", "type1", map[]).1 == f[..1]
      && AddBinding(TwoTypes(), f[..1], {"/file1"}, "/file1", "type2", map[]).1 == f[..2]
      && AddBinding(TwoTypes(), f[..2], {"/file2"}, "/file2", "type1", map[]).1 == f
  {
    var f := FileFixture();
    assert !Contains(f[..1], f[1]) by { assert f[..1] == [f[0]]; }
    assert !Contains(f[..2], f[2]) by { assert f[..2] == [f[0], f[1]]; }
  }

  /** Each bind of the selector fixture stores a new binding. */
  lemma SelectorFixtureSteps()
    ensures var g := SelectorFixture();
      && AddBinding(TwoTypes(), [], {"/file1"}, "/file1", "type1", map[]).1 == g[..1]
      && AddBinding(TwoTypes(), g[..1], {"/file2"}, "/file2", "type2", map[]).1 == g[..2]
      && AddBinding(TwoTypes(), g[..2], {"/file1", "/file2"}, "/file*", "type1", map[]).1 == g
  {
    var g := SelectorFixture();
    assert !Contains(g[..1], g[1]) by { assert g[..1] == [g[0]]; }
    assert !Contains(g[..2], g[2]) by { assert g[..2] == [g[0], g[1]]; }
  }

  method FileBindings() returns (binder: ResourceBinder)
    ensures fresh(binder) && binder.Valid() && binder.bindings == FileFixture()
  {
    var repo;
    repo, binder := TwoFilesTwoTypes();
    TwoFilesResolve(repo);
    FileFixtureSteps();
    var _ := binder.Bind("/file1", "type1", map[]);
    var _ := binder.Bind("/file1", "type2", map[]);
    var _ := binder.Bind("/file2", "type1", map[]);
  }

  method SelectorBindings() returns (binder: ResourceBinder)
    ensures fresh(binder) && binder.Valid() && binder.bindings == SelectorFixture()
  {
    var repo;
    repo, binder := TwoFilesTwoTypes();
    TwoFilesResolve(repo);
    SelectorFixtureSteps();
    var _ := binder.Bind("/file1", "type1", map[]);
    var _ := binder.Bind("/file2", "type2", map[]);
    var _ := binder.Bind("/file*", "type1", map[]);
  }

  /** The counts the unbind-by-path tests observe before their unbind. */
  lemma FileFixtureCounts()
    ensures var s := FileFixture();
      && |OfType(s, "type1")| == 2 && |OfType(s, "type2")| == 1
      && |Covering(s, "/file1")| == 2 && |Covering(s, "/file2")| == 1
  {
    var f := FileFixture();
    Queries3(f[0], f[1], f[2], "type1", "/file1");
    Queries3(f[0], f[1], f[2], "type2", "/file2");
  }

  /** The counts after `unbind('/file1')`. */
  lemma UnbindPathCounts()
    ensures var s := RemoveBindings(FileFixture(), "/file1", None);
      && |OfType(s, "type1")| == 1 && |OfType(s, "type2")| == 0 && |s| == 1
      && |Covering(s, "/file1")| == 0 && |Covering(s, "/file2")| == 1
  {
    var f := FileFixture();
    assert RemoveBindings(f, "/file1", None) == [f[2]];
  }

  /** The counts after `unbind('/file1', 'type1')`. */
  lemma UnbindPathWithTypeCounts()
    ensures var s := RemoveBindings(FileFixture(), "/file1", Some("type1"));
      && |OfType(s, "type1")| == 1 && |OfType(s, "type2")| == 1 && |s| == 2
      && |Covering(s, "/file1")| == 1 && |Covering(s, "/file2")| == 1
  {
    var f := FileFixture();
    assert RemoveBindings(f, "/file1", Some("type1")) == [f[1], f[2]];
  }

  /** The counts the selector test observes before its unbind. */
  lemma SelectorFixtureCounts()
    ensures var s := SelectorFixture();
      && |OfType(s, "type1")| == 2 && |OfType(s, "type2")| == 1
      && |Covering(s, "/file1")| == 2 && |Covering(s, "/file2")| == 2
  {
    var g := SelectorFixture();
    Queries3(g[0], g[1], g[2], "type1", "/file1");
    Queries3(g[0], g[1], g[2], "type2", "/file2");
  }

  /** The counts after `unbind('/file*')`: the exact-path bindings remain. */
  lemma UnbindSelectorCounts()
    ensures var s := RemoveBindings(SelectorFixture(), "/file*", None);
      && |OfType(s, "type1")| == 1 && |OfType(s, "type2")| == 1 && |s| == 2
      && |Covering(s, "/file1")| == 1 && |Covering(s, "/file2")| == 1
  {
    var g := SelectorFixture();
    assert RemoveBindings(g, "/file*", None) == [g[0], g[1]];
  }

  method UnbindPath()
  {
    var binder := FileBindings();
    FileFixtureCounts();
    UnbindPathCounts();
    var found1 := binder.Find("type1");
    var found2 := binder.Find("type2");
    var all := binder.GetBindings(None);
    var at1 := binder.GetBindings(Some("/file1"));
    var at2 := binder.GetBindings(Some("/file2"));
    assert |found1| == 2 && |found2| == 1 && |all| == 3 && |at1| == 2 && |at2| == 1;

    binder.Unbind("/file1", None);

    found1 := binder.Find("type1");
    found2 := binder.Find("type2");
    all := binder.GetBindings(None);
    at1 := binder.GetBindings(Some("/file1"));
    at2 := binder.GetBindings(Some("/file2"));
    assert |found1| == 1 && |found2| == 0 && |all| == 1 && |at1| == 0 && |at2| == 1;
  }

  method UnbindPathWithType()
  {
    var binder := FileBindings();
    FileFixtureCounts();
    UnbindPathWithTypeCounts();
    var found1 := binder.Find("type1");
    var found2 := binder.Find("type2");
    var all := binder.GetBindings(None);
    var at1 := binder.GetBindings(Some("/file1"));
    var at2 := binder.GetBindings(Some("/file2"));
    assert |found1| == 2 && |found2| == 1 && |all| == 3 && |at1| == 2 && |at2| == 1;

    binder.Unbind("/file1", Some("type1"));

    found1 := binder.Find("type1");
    found2 := binder.Find("type2");
    all := binder.GetBindings(None);
    at1 := binder.GetBindings(Some("/file1"));
    at2 := binder.GetBindings(Some("/file2"));
    assert |found1| == 1 && |found2| == 1 && |all| == 2 && |at1| == 1 && |at2| == 1;
  }

  method UnbindSelector()
  {
    var binder := SelectorBindings();
    SelectorFixtureCounts();
    UnbindSelectorCounts();
    var found1 := binder.Find("type1");
    var found2 := binder.Find("type2");
    var all := binder.GetBindings(None);
    var at1 := binder.GetBindings(Some("/file1"));
    var at2 := binder.GetBindings(Some("/file2"));
    assert |found1| == 2 && |found2| == 1 && |all| == 3 && |at1| == 2 && |at2| == 2;

    // only the selector's own binding goes, not the bindings of the paths it matches
    binder.Unbind("/file*", None);

    found1 := binder.Find("type1");
    found2 := binder.Find("type2");
    all := binder.GetBindings(None);
    at1 := binder.GetBindings(Some("/file1"));
    at2 := binder.GetBindings(Some("/file2"));
    assert |found1| == 1 && |found2| == 1 && |all| == 2 && |at1| == 1 && |at2| == 1;
  }

  method UnbindIgnoresUnknownPath()
  {
    var repo := new ResourceRepository(Glob);
    var binder := new ResourceBinder(repo);
    binder.Unbind("/foobar", None);
    var all := binder.GetBindings(None);
    assert |all| == 0;
  }

  /** Binding `/file1` to `type1` stores one binding, which `unbind('/file1', 'foobar')` leaves. */
  lemma UnknownTypeSteps()
    ensures var b := Plain("/file1", "type1", {"/file1"});
      && AddBinding(map["type1" := BindingType("type1", [])], [], {"/file1"}, "/file1", "type1", map[]).1 == [b]
      && RemoveBindings([b], "/file1", Some("foobar")) == [b]
      && OfType([b], "type1") == [b] && Covering([b], "/file1") == [b]
  {
  }

  method UnbindIgnoresUnknownType()
  {
    var repo := new ResourceRepository(Glob);
    repo.Add("/file1");
    var binder := new ResourceBinder(repo);
    var _ := binder.Define(TypeInstance(BindingType("type1", [])));
    OneFileResolve(repo, "/file1");
    UnknownTypeSteps();
    var _ := binder.Bind("/file1", "type1", map[]);

    binder.Unbind("/file1", Some("foobar"));

    var found := binder.Find("type1");
    var all := binder.GetBindings(None);
    var at1 := binder.GetBindings(Some("/file1"));
    assert |found| == 1 && |all| == 1 && |at1| == 1;
  }

  method DefineTypeName()
  {
    var repo := new ResourceRepository(Glob);
    var binder := new ResourceBinder(repo);
    var before := binder.IsDefined("type");
    var _ := binder.Define(TypeName("type"));
    var after := binder.IsDefined("type");
    assert !before && after;
  }

  method DefineFailsIfInvalidType()
  {
    var repo := new ResourceRepository(Glob);
    var binder := new ResourceBinder(repo);
    var r := binder.Define(OtherValue);
    assert r == Fail(InvalidArgument);
  }

  method DefineTypeInstance()
  {
    var repo := new ResourceRepository(Glob);
    var binder := new ResourceBinder(repo);
    var before := binder.IsDefined("type");
    var _ := binder.Define(TypeInstance(BindingType("type", [])));
    var after := binder.IsDefined("type");
    assert !before && after;
  }

  method Undefine()
  {
    var repo := new ResourceRepository(Glob);
    var binder := new ResourceBinder(repo);
    var _ := binder.Define(TypeInstance(BindingType("type", [])));
    var before := binder.IsDefined("type");
    var _ := binder.Undefine(TypeName("type"));
    var after := binder.IsDefined("type");
    assert before && !after;
  }

  method UndefineIgnoresUnknownTypes()
  {
    var repo := new ResourceRepository(Glob);
    var binder := new ResourceBinder(repo);
    var _ := binder.Define(TypeInstance(BindingType("type", [])));
    var r := binder.Undefine(TypeName("foobar"));
    var still := binder.IsDefined("type");
    assert r == Pass && still;
  }

  method UndefineFailsIfInvalidType()
  {
    var repo := new ResourceRepository(Glob);
    var binder := new ResourceBinder(repo);
    var r := binder.Undefine(OtherValue);
    assert r == Fail(InvalidArgument);
  }
}

# Puli discovery: the resource binder and lazy bindings, in Dafny

This project models the binding layer of puli/discovery. A **binding** ties a
resource path, or a glob-style selector such as `/file*`, to a named
**binding type** with a set of parameter values. The **resource binder** is
the registry. It defines and undefines binding types, binds and unbinds
paths, finds the bindings of a type, and lists the bindings that cover a
resource path. A **lazy binding** looks its resources up in the resource
repository the first time they are asked for and keeps the answer.

Files and modules:

- `repository.dfy`, module `Repository`: the resource repository, as far as
  the binding layer uses it. `ResourceRepository` holds a set of resource
  paths and a selector-matching relation fixed at construction. `Find`
  answers a selector and counts the lookup in a ghost counter.
- `binding.dfy`, module `Binding`: `BindingParameter`, `BindingType`,
  default filling (`Defaults`, `Normalize`), the stored binding record
  `ResourceBinding` with its equality `SameBinding`, and the `LazyBinding`
  class.
- `binder.dfy`, module `Binder`: each registry operation is first a function
  of the registry state (`DefineType`, `UndefineType`, `AddBinding`,
  `RemoveBindings`, `OfType`, `Covering`). The `ResourceBinder` class then
  performs it in place on `types: map<string, BindingType>` and
  `bindings: seq<ResourceBinding>`, and is proved to agree with that function.
- `binder_scenarios.dfy`, module `BinderScenarios`: the binder's test cases
  replayed as client methods. Each one proves the counts its test asserts
  from the class contracts alone. The selector semantics used there is a
  small stand-in: an exact path, or a prefix followed by a trailing `*`.

Modelling choices, each fixed by the tests or stated as the model's own:

- `find(type)` returns the bindings of that type. The test counts do not
  fix this: with `/file1→type1` and `/file*→type1` bound over `/file1` and
  `/file2`, `find('type1')` has two elements
  (tests/Binder/ResourceBinderTest.php:189-193). A set of the distinct
  resources bound to the type would also have two, and it fits the other
  counts as well. Returning the bindings is the model's own choice; it
  matches what `getBindings` returns.
- `getBindings(path)` lists every binding whose resolved resources include
  `path`, not only bindings made for that exact string: the `/file*`
  binding is listed under both `/file1` and `/file2`
  (tests/Binder/ResourceBinderTest.php:196-197).
- `unbind` matches the stored path string exactly: `unbind('/file*')`
  removes only the selector's own binding, and the `/file1` binding stays
  (tests/Binder/ResourceBinderTest.php:200-206).
- `bind` checks the type before it asks the repository anything. The tests
  exercise one failure at a time (lines 76-101), so they do not fix this
  order; it is the model's choice, and `Bind` states how many lookups
  follow from it.
- A stored binding keeps the resources the repository returned for the
  lookup `bind` makes. No test changes the repository after a bind, so the
  tests do not fix when a stored binding's resources are looked up; taking
  them at bind time is the model's own choice. A binder that stored lazy
  bindings, which look their resources up on first use, could list `/file*`
  under a path added to the repository later; this model never does. A
  repeated bind stores nothing, so the earlier binding keeps its earlier
  resources even if the repository has changed since.
- Defining a name that is already defined replaces the earlier type under
  that name. No test defines a type twice, and the test helper `createBinder` defines
  a type only when `isDefined` says it is not yet defined
  (tests/Binder/ResourceBinderTest.php:55-58),
  so the tests do not fix what a redefinition does; replacing is the
  model's choice.
- Undefining a type leaves its bindings in place; the tests never undefine
  a type that has bindings, and nothing in them removes bindings on
  undefine.
- Bindings are listed in the order they were stored. The tests only count
  results, so the order is the model's own choice.

## Model

| member | source | states |
|---|---|---|
| `Binding.Defaults` | tests/Binder/ResourceBinderTest.php:109-111 | the declared default of every parameter that has one, keyed by parameter name (its properties are stated by `DefaultsAreDeclared`) |
| `Binding.SameBinding` | tests/Binder/ResourceBinderTest.php:103-119 | the equality under which a second bind is a duplicate: same path, same type name, same effective parameters; the resolved resources play no part |
| `Binding.DefaultsAreDeclared` | tests/Binder/ResourceBinderTest.php:109-111 | only declared parameters get defaults; when names are unique, each parameter that declares a default gets exactly that value |
| `Binding.Normalize` | tests/Binder/ResourceBinderTest.php:109-115 | effective parameters: every supplied value is kept, and each omitted parameter takes its declared default; the keys are the supplied ones plus the defaulted ones |
| `Binding.SuppliedDefaultIsOmitted` | tests/Binder/ResourceBinderTest.php:114-115 | supplying a parameter's default explicitly gives the same effective parameters as leaving it out |
| `Binding.LazyBinding.constructor` | src/Binding/LazyBinding.php:48-53 | stores path, type, parameters and repository; the cache is empty; the repository is not queried and not changed |
| `Binding.LazyBinding.GetResources` | src/Binding/LazyBinding.php:58-65 | first call: one repository lookup of the binding's own path, and the answer is cached; later calls: the cached value, with no lookup; only the cache (and the lookup count) change; at most one lookup per instance |
| `Binding.ResourcesAreStable` | src/Binding/LazyBinding.php:60-64 | two calls return the same set even when the repository gains a resource in between, and the repository is queried at most once |
| `Binder.DefineType` | tests/Binder/ResourceBinderTest.php:236-270 | a name or a type instance becomes defined under its name, and other types are unchanged; anything else fails with an invalid-argument error and changes nothing |
| `Binder.UndefineType` | tests/Binder/ResourceBinderTest.php:272-306 | the name is no longer defined and other types stay; an unknown name is a no-op, not an error; anything else fails with an invalid-argument error |
| `Binder.AddBinding` | tests/Binder/ResourceBinderTest.php:76-119 | an undefined type fails with a no-such-type error naming the type; an empty store answer fails with a binding error naming the path; both leave the bindings unchanged; on success the old bindings are kept in order, a binding equal to the requested one is present, an equal one already stored means nothing changes, and otherwise exactly the requested binding (the type, the normalised parameters and the store's answer) is appended |
| `Binder.AddBindingKeepsDuplicateFree` | tests/Binder/ResourceBinderTest.php:103-119 | a bind never stores two equal bindings (same path, type name and effective parameters) |
| `Binder.BindIsIdempotent` | tests/Binder/ResourceBinderTest.php:103-119 | binding again with parameters that normalise to the same values stores nothing and succeeds |
| `Binder.BoundIsFound` | tests/Binder/ResourceBinderTest.php:131-139 | with every type registered under its own name, a bind that succeeds is then found by `find(typeName)`; a newly stored binding is also listed by `getBindings(p)` for every resource `p` the store answered |
| `Binder.RemoveBindings` | tests/Binder/ResourceBinderTest.php:121-234 | a binding survives an unbind exactly when its stored path differs from the given path, or a type is given and its type differs; when nothing matches, the bindings are unchanged |
| `Binder.RemoveBindingsKeepsDuplicateFree` | tests/Binder/ResourceBinderTest.php:121-148 | an unbind keeps the stored bindings pairwise unequal |
| `Binder.UnbindIsIdempotent` | tests/Binder/ResourceBinderTest.php:209-234 | unbinding what is no longer stored changes nothing |
| `Binder.OfType` | tests/Binder/ResourceBinderTest.php:135-136 | `find(type)`: exactly the stored bindings of that type |
| `Binder.Covering` | tests/Binder/ResourceBinderTest.php:196-197 | `getBindings(path)`: exactly the stored bindings whose resolved resources include the path |
| `Binder.OfTypeAppend` | tests/Binder/ResourceBinderTest.php:131-135 | `find` over bindings stored one after another is the concatenation of its answers, so each binding is found once, in storage order (the order itself is the model's choice; the tests count) |
| `Binder.CoveringAppend` | tests/Binder/ResourceBinderTest.php:131-139 | `getBindings(path)` over bindings stored one after another is the concatenation of its answers, so each binding is listed once, in storage order (the order itself is the model's choice; the tests count) |
| `Binder.FindAfterUnbind` | tests/Binder/ResourceBinderTest.php:141-144 | finding a type after an unbind equals unbinding from what was found for it |
| `Binder.CoveringAfterUnbind` | tests/Binder/ResourceBinderTest.php:200-206 | listing a path after an unbind equals unbinding from what was listed for it |
| `Binder.ResourceBinder.constructor` | tests/Binder/ResourceBinderTest.php:82-83 | a new binder defines no types and holds no bindings |
| `Binder.ResourceBinder.Define` | tests/Binder/ResourceBinderTest.php:236-270 | the outcome and new type table are those of `DefineType`; bindings unchanged; every type stays registered under its own name |
| `Binder.ResourceBinder.Undefine` | tests/Binder/ResourceBinderTest.php:272-306 | the outcome and new type table are those of `UndefineType`; bindings unchanged, so bindings of an undefined type remain |
| `Binder.ResourceBinder.IsDefined` | tests/Binder/ResourceBinderTest.php:239-245 | true exactly when the name is in the type table |
| `Binder.ResourceBinder.Bind` | tests/Binder/ResourceBinderTest.php:76-119 | the outcome and new bindings are those of `AddBinding` with the repository's answer for the path; the repository is asked once if the type is defined and not at all otherwise; no two equal bindings are stored |
| `Binder.ResourceBinder.Unbind` | tests/Binder/ResourceBinderTest.php:121-234 | the new bindings are `RemoveBindings` of the old ones |
| `Binder.ResourceBinder.Find` | tests/Binder/ResourceBinderTest.php:135-136 | returns `OfType` of the stored bindings |
| `Binder.ResourceBinder.GetBindings` | tests/Binder/ResourceBinderTest.php:137-139 | with no path, all stored bindings; with a path, `Covering` of the stored bindings |
| `BinderScenarios.DefaultIsApplied` | tests/Binder/ResourceBinderTest.php:109-115 | `param => default` and no parameters normalise to the same map, `param => default` |
| `BinderScenarios.DuplicateSteps` | tests/Binder/ResourceBinderTest.php:114-118 | the first bind stores one binding; the second, with the parameter omitted, stores nothing |
| `BinderScenarios.FileFixtureSteps` | tests/Binder/ResourceBinderTest.php:131-133 | each of the three binds stores a new binding |
| `BinderScenarios.FileFixtureCounts` | tests/Binder/ResourceBinderTest.php:135-139 | find type1 = 2, find type2 = 1, `/file1` lists 2, `/file2` lists 1 |
| `BinderScenarios.UnbindPathCounts` | tests/Binder/ResourceBinderTest.php:141-147 | after `unbind('/file1')`: type1 = 1, type2 = 0, all = 1, `/file1` = 0, `/file2` = 1 |
| `BinderScenarios.UnbindPathWithTypeCounts` | tests/Binder/ResourceBinderTest.php:170-176 | after `unbind('/file1', 'type1')`: type1 = 1, type2 = 1, all = 2, `/file1` = 1, `/file2` = 1 |
| `BinderScenarios.SelectorFixtureSteps` | tests/Binder/ResourceBinderTest.php:189-191 | each of the three binds, including `/file*`, stores a new binding |
| `BinderScenarios.SelectorFixtureCounts` | tests/Binder/ResourceBinderTest.php:193-197 | find type1 = 2, find type2 = 1, `/file1` lists 2, `/file2` lists 2 |
| `BinderScenarios.UnbindSelectorCounts` | tests/Binder/ResourceBinderTest.php:200-206 | after `unbind('/file*')`: only the selector's own binding is gone; type1 = 1, type2 = 1, all = 2, each path lists 1 |
| `BinderScenarios.UnknownTypeSteps` | tests/Binder/ResourceBinderTest.php:227-233 | `unbind('/file1', 'foobar')` leaves the one stored binding |

The test methods listed below carry no postcondition; the setup helpers `TwoFilesTwoTypes`, `FileBindings` and `SelectorBindings` state in their postconditions the binder they build. The test methods'
assertions are the tests' own:

- `BindFailsIfResourceNotFound`: lines 80-87.
- `BindFailsIfTypeNotFound`: lines 93-101.
- `BindIgnoresDuplicates`: lines 103-119.
- `UnbindPath`: lines 121-148.
- `UnbindPathWithType`: lines 150-177.
- `UnbindSelector`: lines 179-207.
- `UnbindIgnoresUnknownPath`: lines 209-217.
- `UnbindIgnoresUnknownType`: lines 219-234.
- `DefineTypeName`, `DefineFailsIfInvalidType`, `DefineTypeInstance`: lines 236-270.
- `Undefine`, `UndefineIgnoresUnknownTypes`, `UndefineFailsIfInvalidType`: lines 272-306.

## Left out

- The resource repository and its glob matching are external and are not part of this model. The repository is reduced to a set of paths and a matching relation given at construction. The scenarios use their own small matcher.
- Resources are identified by their paths. Resource objects, their contents and their identity are not modelled. A lookup answer, and so the resources a binding or a lazy binding holds, is a set: the order of the collection the repository returns is not modelled.
- The PHP source of `ResourceBinder`, `BindingType`, `BindingParameter` and `AbstractBinding` is not available. `ResourceBinder` is modelled from its tests. `BindingType` and `BindingParameter` are modelled only as far as the tests use them: a name, and a default value. `AbstractBinding` is not modelled.
- Parameter validation beyond default filling is not modelled. This covers the required-parameter mode and the missing-parameter and unknown-parameter errors. No source for them is available.
- Parameter values are strings. PHP allows any value there.
- `LazyBinding.constructor`: the parameters are stored as passed. What the parent constructor in `AbstractBinding` does with them is not modelled.
- The argument of `define`/`undefine` is a tagged union: a name, a type, or some other value. PHP's runtime type inspection and the class name in the exception message are not modelled.
- Exception messages are not modelled. Only the error kind and the path or type name it carries are.
- The test helper `createBinder` (tests/Binder/ResourceBinderTest.php:37-66) and the base test class are not modelled. They are test scaffolding.
- The binder holds its bindings in a sequence. The per-path and per-type indexes an implementation may keep are not modelled. The queries are stated directly over the sequence.

/**
 * The resource store that the binding layer consumes. The binder and the lazy
 * binding only ever ask it one question, `Find(selector)`: which resources does
 * this path or selector denote right now? How a selector is matched (glob
 * syntax and so on) belongs to the store, so the matching relation is handed
 * to the store when it is built. A resource is identified by its path.
 */
module Repository {

  class ResourceRepository {
    /** Paths of the resources currently held by the store. */
    var paths: set<string>
    /** The store's selector semantics: does `selector` denote `path`? */
    const matches: (string, string) -> bool
    /** How many lookups the store has answered; bookkeeping for proofs only. */
    ghost var queries: nat

    constructor (matches: (string, string) -> bool)
      ensures paths == {} && this.matches == matches && queries == 0
    {
      paths := {};
      this.matches := matches;
      queries := 0;
    }

    /** The paths a lookup of `selector` answers in the current state. */
    function Resolve(selector: string): (r: set<string>)
      reads this
      ensures r <= paths
    {
      set p | p in paths && matches(selector, p)
    }

    /** Stores a resource under `path`; lookups are not counted. */
    method Add(path: string)
      modifies this`paths
      ensures paths == old(paths) + {path}
    {
      paths := paths + {path};
    }

    /** Looks up `selector`; the store's contents do not change, one more lookup is counted. */
    method Find(selector: string) returns (r: set<string>)
      modifies this`queries
      ensures r == Resolve(selector)
      ensures queries == old(queries) + 1
    {
      r := set p | p in paths && matches(selector, p);
      queries := queries + 1;
    }
  }
}

/** Call sequences on a `Cache` and what follows for them from the class's
    contracts alone: repeated calls hit, a full clear forgets everything,
    clearing a prefix keeps the values below it, and a null result is never
    remembered. */
module CacheProperties {
  import opened CacheTypes
  import opened PathTree
  import opened CheeseCache

  /** Two calls in a row with the same path and no renewal return the same
      value, and the producer runs at most once, provided what it yields is
      not null. */
  method RepeatedCallHits(c: Cache, path: Path, cacheable: Cacheable)
    returns (first: Result<Value>, second: Result<Value>)
    requires c.Valid() && ValidPath(path) && Produce(cacheable) != Null
    modifies c
    ensures c.Valid()
    ensures first.Success? && second == first
    ensures c.invocations <= old(c.invocations) + 1
  {
    first := c.Cache(path, cacheable, false);
    if first == Success(Produce(cacheable)) {
      StoreThenRead(old(c.tree), path, Produce(cacheable));
    }
    second := c.Cache(path, cacheable, false);
  }

  /** After `clearCache([])` every path misses: the next call runs the
      producer and returns what it yields. */
  method ClearAllThenMiss(c: Cache, path: Path, cacheable: Cacheable) returns (r: Result<Value>)
    requires c.Valid() && ValidPath(path)
    modifies c
    ensures c.Valid()
    ensures r == Success(Produce(cacheable))
    ensures c.invocations == old(c.invocations) + (if cacheable.Callable? then 1 else 0)
  {
    var cleared := c.ClearCache([]);
    EmptyHoldsNothing(path);
    r := c.Cache(path, cacheable, false);
  }

  /** Clearing a proper prefix of a cached path does not clear the path:
      the third call below still hits and the producer runs once in all. */
  method ClearPrefixKeepsLongerPath(c: Cache, prefix: Path, suffix: Path, cacheable: Cacheable)
    returns (first: Result<Value>, third: Result<Value>)
    requires c.Valid() && ValidPath(prefix + suffix) && prefix != [] && suffix != []
    requires Produce(cacheable) != Null
    modifies c
    ensures c.Valid()
    ensures first.Success? && third == first
    ensures c.invocations <= old(c.invocations) + 1
  {
    var path := prefix + suffix;
    assert ValidPath(prefix) by {
      assert forall k :: k in prefix ==> k in path;
    }
    first := c.Cache(path, cacheable, false);
    if first == Success(Produce(cacheable)) {
      StoreThenRead(old(c.tree), path, Produce(cacheable));
    }
    ghost var before := c.tree;
    var cleared := c.ClearCache(prefix);
    assert path != prefix by {
      assert |path| != |prefix|;
    }
    ClearIsLocal(before, prefix, path);
    third := c.Cache(path, cacheable, false);
  }

  /** A producer yielding null is called again on every call to a path
      not yet cached: `isset` treats the stored null as absent. */
  method NullIsRecomputed(c: Cache, path: Path, produce: () -> Value)
    returns (first: Result<Value>, second: Result<Value>)
    requires c.Valid() && ValidPath(path) && !IsSet(c.tree, path) && produce() == Null
    modifies c
    ensures c.Valid()
    ensures first == second == Success(Null)
    ensures c.invocations == old(c.invocations) + 2
  {
    first := c.Cache(path, Callable(produce), false);
    StoreThenRead(old(c.tree), path, Null);
    second := c.Cache(path, Callable(produce), false);
  }
}

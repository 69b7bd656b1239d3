# cheeseCache: the path-tree memoization cache, in Dafny

The class `Cache` of cheeseCache memoizes values under *paths*: ordered
sequences of keys that walk down a nested PHP array. Each node of that
array keeps its own cached value under the reserved key
`reserved_cache_key`, next to its child branches. So `["user"]` and
`["user", 42]` can both hold values. `cache(path, cacheable, renew)`
returns the value kept at the path, or computes it, stores it and returns
it. `clearCache(path)` drops the whole tree for the empty path, and
otherwise removes only the value at the end of the path. Collision mode,
debugging flag and memory limit are settings that are stored and never
read.

The model has four modules:

- `CacheTypes` (`cache_types.dfy`): keys (strings), paths, the reserved
  key, PHP values (with `null` distinct, since `isset` treats a stored
  `null` as absent), the `$cacheable` argument, and the two errors
  `InvalidCacheParameter` and `InvalidCollisionMode` as values of
  `Outcome`/`Result`.
- `PathTree` (`path_tree.dfy`): the nested array as a datatype
  `Node(slot, children)`. It has the specification functions `Subtree`,
  `Slot`, `IsSet`, `Get` and `WithSlot`, and the lemmas that say a write or
  a clear at one path changes the value read at that path and at no other.
- `CheeseCache` (`cache.dfy`): the class `Cache` with its fields and
  methods. Every walk over the tree is a `while` loop, as in the PHP code,
  and each is proved against `PathTree`. A ghost counter `invocations`
  counts calls of a callable producer, so "the producer is not called"
  can be stated.
- `CacheProperties` (`cache_properties.dfy`): call sequences proved from
  the class's contracts alone. Repeated calls hit. A full clear forgets
  everything. Clearing a prefix keeps the values below it. A producer
  that yields `null` runs on every call.

### Two behaviours worth knowing

- Clearing a prefix might be expected to drop every cached path below it.
  The code (app/Cache.php:62-71) unsets only the reserved entry of the
  prefix's own node, so a value at `["user", 42]` survives
  `clearCache(["user"])`. `CacheProperties.ClearPrefixKeepsLongerPath`
  proves this.
- A memoization cache might be expected to run a producer at most once per
  path. The hit test uses `isset` (app/Cache.php:164), so a stored `null`
  counts as a miss, and a producer that returns `null` runs on every call.
  `CacheProperties.NullIsRecomputed` proves this.

## Model

| member | source | states |
|---|---|---|
| `PathTree.Get` | app/Cache.php:132-149 | the value read at a path is non-null exactly when the path is set (`isset` on its reserved entry) |
| `CacheTypes.Produce` | app/Cache.php:40-44 | the value a miss uses: the result of calling a callable, or a plain value as it is |
| `PathTree.IsSet` | app/Cache.php:161-171 | the chain of `isset` tests along the path and on the reserved entry succeeds exactly when the entry at the end of the path is present and not null |
| `PathTree.WithSlot` | app/Cache.php:179-188 | the walk that creates the nodes along a path and then assigns or unsets its reserved entry: the node at the path afterwards is the old node (with its branches) with only the reserved entry replaced |
| `PathTree.SubtreeOfEmpty` | app/Cache.php:161-169 | below a missing branch every path addresses an empty node, so a walk may stop at the first missing key |
| `PathTree.EmptyHoldsNothing` | app/Cache.php:60-61 | after the tree is reset, no path holds an entry, no path is set and every read yields null |
| `PathTree.SlotAfterWithSlot` | app/Cache.php:178-189 | replacing the reserved entry at `p` changes the entry seen at `p` to the new one and the entry at every other path (prefix, extension, sibling) not at all |
| `PathTree.StoreThenRead` | app/Cache.php:186-188 | after storing `v` at `p`, a read at `p` yields `v`, and `p` is set exactly when `v` is not null |
| `PathTree.StoreIsLocal` | app/Cache.php:178-189 | a store at `p` leaves the value read at every other path unchanged |
| `PathTree.ClearIsLocal` | app/Cache.php:62-71 | removing the entry at `p` makes `p` read null and leaves every other path, prefixes and extensions of `p` included, unchanged |
| `PathTree.ClearUnsetIsNoOp` | app/Cache.php:62-71 | clearing a path that is not set changes no read anywhere |
| `PathTree.WithSlotKeepsWellFormed` | app/Cache.php:14-18 | a write or clear along a path without the reserved key never makes the reserved key a branch, so reserved entries only ever hold values |
| `CheeseCache.Cache.constructor` | app/Cache.php:20-23 | a new cache has an empty tree, collision mode "ignore", debugging off and memory limit 0 |
| `CheeseCache.Cache.Cache` | app/Cache.php:32-50 | a path with the reserved key fails with `InvalidCacheParameter` and changes nothing; without renewal a set path returns its value, leaves the tree alone and calls no producer; otherwise the produced value (the call's result, or the plain value) is stored at the path and returned, and a callable is called once |
| `CheeseCache.Cache.ClearCache` | app/Cache.php:55-72 | fails with `InvalidCacheParameter` and changes nothing exactly when the path has the reserved key; the empty path resets the tree; any other path removes only the entry at its end |
| `CheeseCache.Cache.GetValidCollisionModes` | app/Cache.php:77-83 | there are exactly three valid modes: ignore, error and log |
| `CheeseCache.Cache.SetCollisionMode` | app/Cache.php:90-94 | succeeds exactly for a valid mode and then stores it; otherwise fails with `InvalidCollisionMode(mode)` and keeps the current mode |
| `CheeseCache.Cache.SetDebugging` | app/Cache.php:99-101 | stores the flag and nothing else |
| `CheeseCache.Cache.SetMemoryLimit` | app/Cache.php:110-112 | stores the limit and nothing else |
| `CheeseCache.Cache.CleanValue` | app/Cache.php:119-125 | the copy handed in or out equals the original value |
| `CheeseCache.Cache.GeCacheValue` | app/Cache.php:132-149 | returns the value stored at the path when it is set and null otherwise; the walk only passes branches that exist |
| `CheeseCache.Cache.IsCacheSet` | app/Cache.php:156-172 | returns whether a non-null value is kept at the path; it changes nothing |
| `CheeseCache.Cache.SetCacheValue` | app/Cache.php:178-189 | the tree afterwards is the old tree with the value at the path replaced by the new value, nodes created as needed |
| `CheeseCache.Cache.ReplaceSlot` | app/Cache.php:63-70 | the by-reference walk: the tree afterwards is the old tree with the reserved entry at the path replaced, and the reserved key is still never a branch |
| `CheeseCache.Cache.ValidateCacheParameters` | app/Cache.php:191-195 | passes exactly when no component of the path is the reserved key, and fails with `InvalidCacheParameter(reserved key)` otherwise |
| `CheeseCache.Cache.ValidateCollisionMode` | app/Cache.php:202-206 | passes exactly for ignore, error and log, and fails with `InvalidCollisionMode(mode)` otherwise |
| `CacheProperties.RepeatedCallHits` | app/Cache.php:37-46 | two calls with the same path and no renewal return the same value and call the producer at most once, if it does not yield null |
| `CacheProperties.ClearAllThenMiss` | app/Cache.php:60-61 | after `clearCache([])` any path misses: the producer runs and its value is returned |
| `CacheProperties.ClearPrefixKeepsLongerPath` | app/Cache.php:62-71 | clearing any proper non-empty prefix of a cached path (the path is the prefix followed by a non-empty suffix) leaves the path cached: the next call returns the same value without calling the producer again |
| `CacheProperties.NullIsRecomputed` | app/Cache.php:164 | on a path not yet cached, a producer that yields null is called on each of two calls, since a stored null is not set |

## Left out

- Calling `$cacheable` (app/Cache.php:40-41) is a call of a total Dafny function with no side effects. Exceptions thrown by the producer and its side effects are not modelled.
- The `is_callable` test (app/Cache.php:40): the caller of the model chooses `Callable` or `Plain`. In PHP a string naming a function (such as `'time'`) or an `[object, 'method']` array is callable and would be called, not stored; the model stores such a value as given when it is passed as `Plain`.
- CheeseCache.Cache.CleanValue: values are immutable datatypes, so `clone` yields an equal value, and object identity is not modelled. That a later change to a caller's object does not reach the cached copy holds by construction, not by proof. Shallow versus deep cloning cannot be told apart either.
- The `(array)` cast that turns a scalar path into a one-element path (app/Cache.php:33, 56), and PHP's default argument values: paths are always sequences, and every argument is passed.
- PHP array-key coercion (integer-like strings, floats, booleans as keys): keys are strings.
- The loose comparison of `in_array` in both validators (app/Cache.php:192, 203): the model compares strictly. Under PHP 7, an integer key `0` compares loosely equal to the reserved key string and would be rejected; the model accepts it.
- The `null` placeholders and empty arrays that the reference walks leave behind (app/Cache.php:63-68, 179-184): a missing branch is an empty node, which `isset` cannot tell apart.
- The meaning of `debug`, `memoryLimit` and the collision mode: the class stores them and never reads them, so no eviction or collision detection is modelled.
- The interface `ICache` and the exception classes are not part of this model. The collision-mode constants are three distinct integers here; their actual values are declared in `ICache`.
- PHP notices, float values and resources.

/** Values shared by the path tree and the cache object: keys and paths,
    the values a PHP caller can cache, the producer handed to `cache`, and
    the two error kinds the cache raises. */
module CacheTypes {

  /** A path component. PHP array keys are strings or integers, and an
      integer-like string is stored under its integer; a key is modelled by
      its string form, which identifies the same array slot. */
  type Key = string

  /** The sequence of keys a caller passes as `$cacheParams`. */
  type Path = seq<Key>

  /** The key under which a tree node keeps its own cached value; callers
      may never use it as a path component. */
  const RESERVED_CACHE_KEY: Key := "reserved_cache_key"

  /** A path the cache accepts: it never names the reserved key. */
  predicate ValidPath(p: Path) {
    RESERVED_CACHE_KEY !in p
  }

  datatype Option<T> = None | Some(value: T)

  /** A PHP value as far as the cache can tell them apart: `null` (which
      `isset` treats as absent), scalars, arrays (copied on assignment) and
      objects (handles, which the cache clones). */
  datatype Value =
    | Null
    | Bool(b: bool)
    | Int(i: int)
    | Str(s: string)
    | Array(entries: map<Key, Value>)
    | Object(className: string, props: map<string, Value>)

  /** The `$cacheable` argument: something `is_callable` accepts, whose
      call yields the value to cache, or a plain value cached as it is.
      Which of the two an argument is, is decided by whoever builds it. */
  datatype Cacheable = Callable(produce: () -> Value) | Plain(value: Value)

  /** The value a miss stores and returns for `c`. */
  function Produce(c: Cacheable): Value {
    match c
    case Callable(f) => f()
    case Plain(v) => v
  }

  /** The exceptions `InvalidCacheParameter` and `InvalidCollisionMode`,
      each with the argument it is constructed with. */
  datatype CacheError = InvalidCacheParameter(param: Key) | InvalidCollisionMode(mode: int)

  /** Outcome of an operation that returns nothing or throws. */
  datatype Outcome = Pass | Fail(error: CacheError)

  /** Outcome of an operation that returns a value or throws. */
  datatype Result<T> = Success(value: T) | Failure(error: CacheError)
}

/** The class `Cache`: a memoization cache whose entries are addressed by
    paths into a tree, plus three configuration fields that are stored and
    never consulted. Every walk over the tree is a loop, as in the class;
    each is proved against the functions of `PathTree`. */
module CheeseCache {
  import opened CacheTypes
  import opened PathTree

  /** The collision modes the cache interface names. Their values are
      declared by the interface, which is not part of this model; only
      their being three distinct integers matters. */
  const COLLISION_MODE_IGNORE: int := 0
  const COLLISION_MODE_ERROR: int := 1
  const COLLISION_MODE_LOG: int := 2

  class Cache {
    var tree: Node
    var collisionMode: int
    var debug: bool
    var memoryLimit: int

    /** How many times a callable producer has been called; it makes "the
        producer is not invoked" something a contract can state. */
    ghost var invocations: nat

    ghost predicate Valid()
      reads this
    {
      WellFormed(tree) && collisionMode in GetValidCollisionModes()
    }

    constructor ()
      ensures Valid()
      ensures tree == Empty && collisionMode == COLLISION_MODE_IGNORE
      ensures !debug && memoryLimit == 0 && invocations == 0
    {
      tree := Empty;
      collisionMode := COLLISION_MODE_IGNORE;
      debug := false;
      memoryLimit := 0;
      invocations := 0;
    }

    /** Cache-or-compute. A path holding the reserved key is rejected before
        anything changes. Without `renewCache`, a set path is a hit: its
        value is returned, the tree stays as it is and the producer is not
        called. Otherwise the produced value is stored at the path,
        overwriting what was there, and returned. */
    method Cache(path: Path, cacheable: Cacheable, renewCache: bool) returns (r: Result<Value>)
      requires Valid()
      modifies this`tree, this`invocations
      ensures Valid()
      ensures !ValidPath(path) ==>
        r == Failure(InvalidCacheParameter(RESERVED_CACHE_KEY))
        && tree == old(tree) && invocations == old(invocations)
      ensures ValidPath(path) && !renewCache && IsSet(old(tree), path) ==>
        r == Success(Get(old(tree), path))
        && tree == old(tree) && invocations == old(invocations)
      ensures ValidPath(path) && (renewCache || !IsSet(old(tree), path)) ==>
        r == Success(Produce(cacheable))
        && tree == WithSlot(old(tree), path, Some(Produce(cacheable)))
        && invocations == old(invocations) + (if cacheable.Callable? then 1 else 0)
    {
      var check := ValidateCacheParameters(path);
      if check.Fail? {
        return Failure(check.error);
      }
      var hit := false;
      if !renewCache {
        hit := IsCacheSet(path);
      }
      var value: Value;
      if hit {
        value := GeCacheValue(path);
      } else {
        if cacheable.Callable? {
          value := cacheable.produce();
          invocations := invocations + 1;
        } else {
          value := cacheable.value;
        }
        SetCacheValue(path, value);
      }
      r := Success(value);
    }

    /** With the empty path, drops the whole tree; otherwise removes the
        value at the end of the path and nothing else (values below it stay).
        A path holding the reserved key is rejected before anything changes. */
    method ClearCache(path: Path) returns (r: Outcome)
      requires Valid()
      modifies this`tree
      ensures Valid()
      ensures r.Fail? <==> !ValidPath(path)
      ensures r.Fail? ==> r.error == InvalidCacheParameter(RESERVED_CACHE_KEY) && tree == old(tree)
      ensures r.Pass? && path == [] ==> tree == Empty
      ensures r.Pass? && path != [] ==> tree == WithSlot(old(tree), path, None)
    {
      r := ValidateCacheParameters(path);
      if r.Fail? {
        return;
      }
      if path == [] {
        tree := Empty;
      } else {
        ReplaceSlot(path, None);
      }
    }

    /** The three collision modes, each once. */
    static function GetValidCollisionModes(): (modes: seq<int>)
      ensures |modes| == 3
      ensures forall m :: m in modes <==>
        m == COLLISION_MODE_IGNORE || m == COLLISION_MODE_ERROR || m == COLLISION_MODE_LOG
    {
      [COLLISION_MODE_IGNORE, COLLISION_MODE_ERROR, COLLISION_MODE_LOG]
    }

    /** Accepts exactly the valid modes; any other value is rejected with
        `InvalidCollisionMode` and the current mode is kept. */
    method SetCollisionMode(mode: int) returns (r: Outcome)
      requires Valid()
      modifies this`collisionMode
      ensures Valid()
      ensures r.Pass? <==> mode in GetValidCollisionModes()
      ensures r.Pass? ==> collisionMode == mode
      ensures r.Fail? ==> r.error == InvalidCollisionMode(mode) && collisionMode == old(collisionMode)
    {
      r := ValidateCollisionMode(mode);
      if r.Fail? {
        return;
      }
      collisionMode := mode;
    }

    /** Stores the debugging flag; no operation reads it. */
    method SetDebugging(enabled: bool)
      modifies this`debug
      ensures debug == enabled
    {
      debug := enabled;
    }

    /** Stores the memory limit in megabytes (0 for none); no operation
        reads it. */
    method SetMemoryLimit(megabytes: int)
      modifies this`memoryLimit
      ensures memoryLimit == megabytes
    {
      memoryLimit := megabytes;
    }

    /** The copy the cache keeps or hands out: objects are cloned, other
        values are copied by PHP's assignment anyway. A value cannot be
        aliased in this model, so the copy equals the original. */
    static function CleanValue(v: Value): (c: Value)
      ensures c == v
    {
      if v.Object? then Object(v.className, v.props) else v
    }

    /** Reads the value at `path`: the stored value when the path is set,
        otherwise null. The walk indexes branches directly, as the class
        does, which is safe because a set path only passes existing
        branches. */
    method GeCacheValue(path: Path) returns (value: Value)
      requires ValidPath(path)
      ensures value == Get(tree, path)
    {
      var isSet := IsCacheSet(path);
      var found := Null;
      if isSet {
        var node := tree;
        var rest := path;
        while rest != []
          invariant Subtree(node, rest) == Subtree(tree, path)
          invariant IsSet(node, rest)
          decreases |rest|
        {
          var key := rest[0];
          rest := rest[1..];
          node := node.children[key];
        }
        found := node.slot.value;
      }
      value := CleanValue(found);
    }

    /** Whether a non-null value is kept at `path`. The walk stops at the
        first missing branch and creates nothing. */
    method IsCacheSet(path: Path) returns (isSet: bool)
      requires ValidPath(path)
      ensures isSet == IsSet(tree, path)
    {
      var node := tree;
      var rest := path;
      while rest != []
        invariant IsSet(node, rest) == IsSet(tree, path)
        decreases |rest|
      {
        var key := rest[0];
        rest := rest[1..];
        if key !in node.children {
          return false;
        }
        node := node.children[key];
      }
      isSet := node.slot.Some? && node.slot.value != Null;
    }

    /** Stores a copy of `value` at `path`, creating the nodes on the way. */
    method SetCacheValue(path: Path, value: Value)
      requires Valid() && ValidPath(path)
      modifies this`tree
      ensures Valid()
      ensures tree == WithSlot(old(tree), path, Some(value))
    {
      ReplaceSlot(path, Some(CleanValue(value)));
    }

    /** The walk by reference shared by `setCacheValue` and `clearCache`:
        descend along `path`, creating missing nodes, and replace the
        reserved entry of the last node by `s`. The chain of references is
        kept as the sequence of nodes passed, and the nodes above the
        written one are rebuilt on the way back. */
    method ReplaceSlot(path: Path, s: Option<Value>)
      requires Valid() && ValidPath(path)
      modifies this`tree
      ensures Valid()
      ensures tree == WithSlot(old(tree), path, s)
    {
      var spine := [tree];
      var i := 0;
      while i < |path|
        invariant 0 <= i <= |path| && |spine| == i + 1 && spine[0] == tree
        invariant forall j :: 0 <= j < i ==> spine[j + 1] == Child(spine[j], path[j])
      {
        spine := spine + [Child(spine[i], path[i])];
        i := i + 1;
      }
      var node := spine[i].(slot := s);
      while i > 0
        invariant 0 <= i <= |path|
        invariant node == WithSlot(spine[i], path[i..], s)
      {
        i := i - 1;
        node := spine[i].(children := spine[i].children[path[i] := node]);
      }
      WithSlotKeepsWellFormed(tree, path, s);
      tree := node;
    }

    /** Rejects a path that holds the reserved key anywhere. */
    static function ValidateCacheParameters(path: Path): (r: Outcome)
      ensures r.Pass? <==> forall i :: 0 <= i < |path| ==> path[i] != RESERVED_CACHE_KEY
      ensures r.Fail? ==> r.error == InvalidCacheParameter(RESERVED_CACHE_KEY)
    {
      if RESERVED_CACHE_KEY in path then Fail(InvalidCacheParameter(RESERVED_CACHE_KEY)) else Pass
    }

    /** Rejects a mode that is not one of the three collision modes. */
    static function ValidateCollisionMode(mode: int): (r: Outcome)
      ensures r.Pass? <==>
        mode == COLLISION_MODE_IGNORE || mode == COLLISION_MODE_ERROR || mode == COLLISION_MODE_LOG
      ensures r.Fail? ==> r.error == InvalidCollisionMode(mode)
    {
      if mode in GetValidCollisionModes() then Pass else Fail(InvalidCollisionMode(mode))
    }
  }
}

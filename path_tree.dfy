/** The nested array `$cache` of `Cache`, seen as a tree: each node has an
    optional value of its own (the entry under the reserved key) and
    children under ordinary keys. A child that is absent, or that a
    reference walk left as a `null` placeholder, behaves as an empty node.

    The functions here are the specification the cache's loops are proved
    against; the lemmas say what a write or a clear at one path does to the
    value seen at every path. */
module PathTree {
  import opened CacheTypes

  datatype Node = Node(slot: Option<Value>, children: map<Key, Node>)

  /** The root a fresh cache and `clearCache([])` start from. */
  const Empty: Node := Node(None, map[])

  /** No node of the tree uses the reserved key as a branch, so the
      reserved entry of every node holds a value and never a subtree. */
  ghost predicate WellFormed(n: Node)
    decreases n
  {
    && RESERVED_CACHE_KEY !in n.children
    && forall k :: k in n.children ==> WellFormed(n.children[k])
  }

  /** The node reached from `n` by key `k`; a missing branch is empty. */
  function Child(n: Node, k: Key): Node {
    if k in n.children then n.children[k] else Empty
  }

  /** The node a path addresses; the empty path addresses `n` itself. */
  ghost function Subtree(n: Node, p: Path): Node
    decreases |p|
  {
    if p == [] then n else Subtree(Child(n, p[0]), p[1..])
  }

  /** What is kept under the reserved key at the end of path `p`. */
  ghost function Slot(t: Node, p: Path): Option<Value> {
    Subtree(t, p).slot
  }

  /** The chain of `isset` tests of `isCacheSet`: each key of `p` names a
      branch that exists, and the reserved entry of the last node holds a
      value other than null. That is the same as saying the entry at the end
      of `p` is present and not null. */
  ghost predicate IsSet(t: Node, p: Path)
    ensures IsSet(t, p) <==> Slot(t, p).Some? && Slot(t, p).value != Null
    decreases |p|
  {
    if p == [] then t.slot.Some? && t.slot.value != Null
    else if p[0] in t.children then IsSet(t.children[p[0]], p[1..])
    else SubtreeOfEmpty(p[1..]); false
  }

  /** What a read at `p` yields: the stored value when set, otherwise null. */
  ghost function Get(t: Node, p: Path): (v: Value)
    ensures v != Null <==> IsSet(t, p)
  {
    if IsSet(t, p) then Slot(t, p).value else Null
  }

  /** `t` with the reserved entry at the end of `p` replaced by `s` (a value
      for a write, `None` for an `unset`), creating the nodes along `p`. */
  ghost function WithSlot(t: Node, p: Path, s: Option<Value>): (u: Node)
    ensures Subtree(u, p) == Subtree(t, p).(slot := s)
    decreases |p|
  {
    if p == [] then t.(slot := s)
    else t.(children := t.children[p[0] := WithSlot(Child(t, p[0]), p[1..], s)])
  }

  /** Every path below an empty node addresses an empty node. */
  lemma {:induction false} SubtreeOfEmpty(p: Path)
    ensures Subtree(Empty, p) == Empty
    decreases |p|
  {
    if p != [] {
      SubtreeOfEmpty(p[1..]);
    }
  }

  /** After `clearCache([])` no path holds an entry, so nothing is set. */
  lemma {:induction false} EmptyHoldsNothing(q: Path)
    ensures Slot(Empty, q) == None && !IsSet(Empty, q) && Get(Empty, q) == Null
  {
    SubtreeOfEmpty(q);
  }

  /** Replacing the entry at `p` changes what is kept at `p` and at no other
      path: not at a prefix of `p`, not at an extension, not at a sibling. */
  lemma {:induction false} SlotAfterWithSlot(t: Node, p: Path, s: Option<Value>, q: Path)
    ensures Slot(WithSlot(t, p, s), q) == if q == p then s else Slot(t, q)
    decreases |p|
  {
    var u := WithSlot(t, p, s);
    if p == [] {
      if q != [] {
        assert Child(u, q[0]) == Child(t, q[0]);
      }
    } else if q != [] {
      if q[0] == p[0] {
        assert Child(u, q[0]) == WithSlot(Child(t, p[0]), p[1..], s);
        SlotAfterWithSlot(Child(t, p[0]), p[1..], s, q[1..]);
        assert q == p <==> q[1..] == p[1..] by {
          if q[1..] == p[1..] {
            assert q == [q[0]] + q[1..] && p == [p[0]] + p[1..];
          }
        }
      } else {
        assert Child(u, q[0]) == Child(t, q[0]);
      }
    }
  }

  /** Storing `v` at `p` (what `setCacheValue` does): a read at `p` yields
      `v`, and `p` counts as set exactly when `v` is not null. */
  lemma {:induction false} StoreThenRead(t: Node, p: Path, v: Value)
    ensures Get(WithSlot(t, p, Some(v)), p) == v
    ensures IsSet(WithSlot(t, p, Some(v)), p) <==> v != Null
  {
    SlotAfterWithSlot(t, p, Some(v), p);
  }

  /** A store at `p` leaves the value read at every other path as it was. */
  lemma {:induction false} StoreIsLocal(t: Node, p: Path, v: Value, q: Path)
    requires q != p
    ensures Get(WithSlot(t, p, Some(v)), q) == Get(t, q)
  {
    SlotAfterWithSlot(t, p, Some(v), q);
  }

  /** Removing the entry at `p` (what `clearCache(p)` does for non-empty
      `p`) unsets `p` and leaves every other path, prefixes and extensions
      of `p` included, as it was. */
  lemma {:induction false} ClearIsLocal(t: Node, p: Path, q: Path)
    ensures Get(WithSlot(t, p, None), q) == if q == p then Null else Get(t, q)
  {
    SlotAfterWithSlot(t, p, None, q);
  }

  /** Clearing a path that holds no value changes no read anywhere. */
  lemma {:induction false} ClearUnsetIsNoOp(t: Node, p: Path, q: Path)
    requires !IsSet(t, p)
    ensures Get(WithSlot(t, p, None), q) == Get(t, q)
  {
    ClearIsLocal(t, p, q);
  }

  /** Writing or clearing along a path without the reserved key never makes
      the reserved key a branch. */
  lemma {:induction false} WithSlotKeepsWellFormed(t: Node, p: Path, s: Option<Value>)
    requires WellFormed(t) && ValidPath(p)
    ensures WellFormed(WithSlot(t, p, s))
    decreases |p|
  {
    if p != [] {
      assert p == [p[0]] + p[1..];
      WithSlotKeepsWellFormed(Child(t, p[0]), p[1..], s);
    }
  }
}

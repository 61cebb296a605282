/** The least set of keys that holds a start set and, with every parent, all the parent's parts; and the
    uniqueness of the objects under those keys. */
module Closure {
  import opened Names
  import opened ApiServer

  predicate ClosedKeys(keys: set<Key>) {
    forall k, p :: k in keys && ParentKind(p) == k.kind ==> ChildKey(k, p) in keys
  }

  function Below(keys: set<Key>): set<Key> {
    set k, p: Part | k in keys && ParentKind(p) == k.kind :: ChildKey(k, p)
  }

  function Grow(keys: set<Key>): set<Key> {
    keys + Below(keys)
  }

  /** Three rounds suffice: every round adds keys of lower rank only. */
  function KeyClosure(keys: set<Key>): set<Key> {
    Grow(Grow(Grow(keys)))
  }

  /** A key that a round added is the child of a key that was there. */
  lemma AddedIsChild(keys: set<Key>, k: Key) returns (parent: Key, p: Part)
    requires k in Grow(keys) && k !in keys
    ensures parent in keys && ParentKind(p) == parent.kind && k == ChildKey(parent, p)
    ensures Rank(k.kind) < Rank(parent.kind) <= 3
  {
    parent, p :| parent in keys && ParentKind(p) == parent.kind && k == ChildKey(parent, p);
    RankDescends(p);
  }

  lemma ChildIsAdded(keys: set<Key>, parent: Key, p: Part)
    requires parent in keys && ParentKind(p) == parent.kind
    ensures ChildKey(parent, p) in Grow(keys)
  {
    assert ChildKey(parent, p) in Below(keys);
  }

  /** What the third round added has no parts. */
  lemma LastRoundIsLeaf(keys: set<Key>, k: Key)
    requires k in KeyClosure(keys) && k !in Grow(Grow(keys))
    ensures Rank(k.kind) == 0
  {
    var x, p := AddedIsChild(Grow(Grow(keys)), k);
    if x in Grow(keys) {
      ChildIsAdded(Grow(keys), x, p);
    } else {
      var y, q := AddedIsChild(Grow(keys), x);
      if y in keys {
        ChildIsAdded(keys, y, q);
      } else {
        var z, r := AddedIsChild(keys, y);
      }
    }
  }

  lemma ClosureIsClosed(keys: set<Key>)
    ensures keys <= KeyClosure(keys) && ClosedKeys(KeyClosure(keys))
  {
    forall k, p | k in KeyClosure(keys) && ParentKind(p) == k.kind ensures ChildKey(k, p) in KeyClosure(keys) {
      if k in Grow(Grow(keys)) {
        ChildIsAdded(Grow(Grow(keys)), k, p);
      } else {
        LastRoundIsLeaf(keys, k);
        RankDescends(p);
        assert false;
      }
    }
  }

  lemma GrowStaysInside(keys: set<Key>, all: set<Key>)
    requires keys <= all && ClosedKeys(all)
    ensures Grow(keys) <= all
  {
  }

  /** The closure is the least closed set above the start set. */
  lemma ClosureIsLeast(keys: set<Key>, all: set<Key>)
    requires keys <= all && ClosedKeys(all)
    ensures KeyClosure(keys) <= all
  {
    GrowStaysInside(keys, all);
    GrowStaysInside(Grow(keys), all);
    GrowStaysInside(Grow(Grow(keys)), all);
  }

  // ---------------------------------------------------------------- justified stores

  /** The Secret a part is built from, in this store. */
  function SecretIn(st: Store, p: Part, parent: Key): Body {
    if NeedsSecret(p) && ChildKey(parent, SecretPart) in st then st[ChildKey(parent, SecretPart)].body else Other
  }

  function OwnerKey(o: Obj): Option<Key> {
    if o.owner.Some? then Some(o.owner.value.key) else None
  }

  /** The finalizers of an object once its own controller, if it has one, has added its finalizer. */
  function Finalized(k: Key, o: Obj): seq<string> {
    if Managed(k.kind) && Finalizer(k.kind) !in o.finalizers then o.finalizers + [Finalizer(k.kind)] else o.finalizers
  }

  /** The same but for incarnation, version and status, and up to the object's own finalizer. */
  predicate Alike(k: Key, a: Obj, b: Obj) {
    a.body == b.body && OwnerKey(a) == OwnerKey(b) && Finalized(k, a) == Finalized(k, b)
  }

  /** The object is what the parent's reconcile builds from the present spec and Secret. */
  predicate Claims(st: Store, k: Key, parent: Key, p: Part, oracle: Key -> Gen) {
    && Managed(parent.kind) && ParentKind(p) == parent.kind && k == ChildKey(parent, p)
    && k in st && parent in st
    && st[k].body == Build(p, parent, st[parent].body, SecretIn(st, p, parent), oracle(parent))
    && OwnerKey(st[k]) == (if Owned(p) then Some(parent) else None)
    && Finalized(k, st[k]) == (if Managed(k.kind) then [Finalizer(k.kind)] else [])
    && (NeedsSecret(p) ==> ChildKey(parent, SecretPart) in st)
  }

  /** An object of the start store, alike, or one built by the reconcile of a present parent. */
  ghost predicate Justified(base: Store, st: Store, k: Key, oracle: Key -> Gen) {
    k in st ==>
      (k in base && Alike(k, st[k], base[k]))
      || (k !in base && exists parent, p :: Claims(st, k, parent, p, oracle))
  }

  /** Every justified store lies inside the closure of the start store. */
  lemma {:induction false} JustifiedInside(base: Store, st: Store, k: Key, oracle: Key -> Gen)
    requires forall x :: Justified(base, st, x, oracle)
    requires k in st
    ensures k in KeyClosure(base.Keys)
    decreases 3 - Rank(k.kind)
  {
    ClosureIsClosed(base.Keys);
    assert Justified(base, st, k, oracle);
    if k !in base {
      var parent, p :| Claims(st, k, parent, p, oracle);
      RankDescends(p);
      JustifiedInside(base, st, parent, oracle);
    }
  }

  /** CoreExt names are unique across namespaces. */
  predicate UniqueExts(keys: set<Key>) {
    forall x, y :: x in keys && y in keys && x.kind == CoreExt && y.kind == CoreExt && x.name == y.name ==> x == y
  }

  lemma OneParent(base: Store, a: Store, b: Store, k: Key, x: Key, p: Part, y: Key, q: Part, oracle: Key -> Gen)
    requires forall z :: Justified(base, a, z, oracle)
    requires forall z :: Justified(base, b, z, oracle)
    requires UniqueExts(KeyClosure(base.Keys))
    requires Claims(a, k, x, p, oracle) && Claims(b, k, y, q, oracle)
    ensures x == y && p == q
  {
    ChildKeyInjective(x, p, y, q);
    JustifiedInside(base, a, x, oracle);
    JustifiedInside(base, b, y, oracle);
  }

  lemma ClaimFacts(st: Store, k: Key, parent: Key, p: Part, oracle: Key -> Gen)
    requires Claims(st, k, parent, p, oracle)
    ensures parent in st && k in st && ParentKind(p) == parent.kind && k == ChildKey(parent, p)
    ensures NeedsSecret(p) ==> ChildKey(parent, SecretPart) in st
  {
  }

  lemma SameBuild(a: Store, b: Store, k: Key, parent: Key, p: Part, oracle: Key -> Gen)
    requires Claims(a, k, parent, p, oracle) && Claims(b, k, parent, p, oracle)
    requires Alike(parent, a[parent], b[parent])
    requires NeedsSecret(p) ==>
               Alike(ChildKey(parent, SecretPart), a[ChildKey(parent, SecretPart)], b[ChildKey(parent, SecretPart)])
    ensures Alike(k, a[k], b[k])
  {
  }

  /** Two justified stores over one start store hold alike objects under the keys they share. */
  lemma {:induction false} JustifiedUnique(base: Store, a: Store, b: Store, k: Key, oracle: Key -> Gen)
    requires forall x :: Justified(base, a, x, oracle)
    requires forall x :: Justified(base, b, x, oracle)
    requires UniqueExts(KeyClosure(base.Keys))
    requires k in a && k in b
    ensures Alike(k, a[k], b[k])
    decreases 3 - Rank(k.kind), if k.kind == ConfigMap then 1 else 0
  {
    hide KeyClosure, UniqueExts, Claims, Finalized, OwnerKey;
    assert Justified(base, a, k, oracle) && Justified(base, b, k, oracle);
    if k !in base {
      var x, p :| Claims(a, k, x, p, oracle);
      var y, q :| Claims(b, k, y, q, oracle);
      OneParent(base, a, b, k, x, p, y, q, oracle);
      ClaimFacts(a, k, x, p, oracle);
      ClaimFacts(b, k, x, p, oracle);
      RankDescends(p);
      JustifiedUnique(base, a, b, x, oracle);
      if NeedsSecret(p) {
        JustifiedUnique(base, a, b, ChildKey(x, SecretPart), oracle);
      }
      SameBuild(a, b, k, x, p, oracle);
    }
  }
}

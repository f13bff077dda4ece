/**
 * Scope nesting: the parent relation over opaque keys, and which listeners a dispatch admits.
 */
module Scope {
  import opened Options

  type Key = nat

  // ----- walking towards the root -----

  /** The key reached after `n` parent links, if the chain is that long. */
  function Walk(parents: map<Key, Key>, key: Key, n: nat): Option<Key>
    decreases n
  {
    if n == 0 then Some(key)
    else if key in parents then Walk(parents, parents[key], n - 1)
    else None
  }

  /** `ancestor` is `key` or lies on the way from `key` to its root. */
  ghost predicate Reaches(parents: map<Key, Key>, key: Key, ancestor: Key) {
    exists n: nat :: Walk(parents, key, n) == Some(ancestor)
  }

  /** No key is its own proper ancestor. */
  ghost predicate Acyclic(parents: map<Key, Key>) {
    forall k | k in parents :: !Reaches(parents, parents[k], k)
  }

  lemma ReachesStep(parents: map<Key, Key>, key: Key, ancestor: Key)
    requires key in parents
    ensures Reaches(parents, key, ancestor) <==> key == ancestor || Reaches(parents, parents[key], ancestor)
  {
    assert Walk(parents, key, 0) == Some(key);
    if n: nat :| Walk(parents, key, n) == Some(ancestor) && n > 0 {
      assert Walk(parents, parents[key], n - 1) == Some(ancestor);
    }
    if n: nat :| Walk(parents, parents[key], n) == Some(ancestor) {
      assert Walk(parents, key, n + 1) == Some(ancestor);
    }
  }

  lemma {:induction false} WalkJoins(parents: map<Key, Key>, a: Key, n: nat, b: Key, m: nat)
    requires Walk(parents, a, n) == Some(b)
    ensures Walk(parents, a, n + m) == Walk(parents, b, m)
    decreases n
  {
    if n > 0 {
      WalkJoins(parents, parents[a], n - 1, b, m);
    }
  }

  lemma ReachesTrans(parents: map<Key, Key>, a: Key, b: Key, c: Key)
    requires Reaches(parents, a, b) && Reaches(parents, b, c)
    ensures Reaches(parents, a, c)
  {
    var n: nat :| Walk(parents, a, n) == Some(b);
    var m: nat :| Walk(parents, b, m) == Some(c);
    WalkJoins(parents, a, n, b, m);
    assert Walk(parents, a, n + m) == Some(c);
  }

  // ----- linking keeps the relation a forest -----

  /** A walk after a link either never uses the link, or passes the linked key and goes on from the new parent. */
  lemma {:induction false} WalkAfterLink(parents: map<Key, Key>, key: Key, parent: Key, a: Key, n: nat, b: Key)
    requires Walk(parents[key := parent], a, n) == Some(b)
    ensures Reaches(parents, a, b) || (Reaches(parents, a, key) && Reaches(parents[key := parent], parent, b))
    decreases n
  {
    var linked := parents[key := parent];
    assert Walk(parents, a, 0) == Some(a);
    if n > 0 {
      if a == key {
        assert Walk(linked, parent, n - 1) == Some(b);
      } else {
        WalkAfterLink(parents, key, parent, parents[a], n - 1, b);
        ReachesStep(parents, a, b);
        ReachesStep(parents, a, key);
      }
    }
  }

  /** A walk that cannot meet the linked key is what it was. */
  lemma {:induction false} WalkAvoids(parents: map<Key, Key>, key: Key, parent: Key, a: Key, n: nat)
    requires !Reaches(parents, a, key)
    ensures Walk(parents[key := parent], a, n) == Walk(parents, a, n)
    decreases n
  {
    assert Walk(parents, a, 0) == Some(a);
    if n > 0 && a in parents {
      ReachesStep(parents, a, key);
      WalkAvoids(parents, key, parent, parents[a], n - 1);
    }
  }

  /** Linking `key` under `parent` keeps the relation acyclic exactly when `key` is not on `parent`'s chain. */
  lemma LinkKeepsAcyclic(parents: map<Key, Key>, key: Key, parent: Key)
    requires Acyclic(parents)
    ensures Acyclic(parents[key := parent]) <==> !Reaches(parents, parent, key)
  {
    var linked := parents[key := parent];
    if Reaches(parents, parent, key) {
      LinkClosesCycle(parents, key, parent);
    } else {
      forall k | k in linked ensures !Reaches(linked, linked[k], k) {
        forall n: nat ensures Walk(linked, linked[k], n) != Some(k) {
          NoWalkBack(parents, key, parent, k, n);
        }
      }
    }
  }

  /** No walk comes back in a relation linked past the check. */
  lemma NoWalkBack(parents: map<Key, Key>, key: Key, parent: Key, k: Key, n: nat)
    requires Acyclic(parents) && !Reaches(parents, parent, key) && k in parents[key := parent]
    ensures Walk(parents[key := parent], parents[key := parent][k], n) != Some(k)
  {
    var linked := parents[key := parent];
    if k == key {
      WalkAvoids(parents, key, parent, parent, n);
    } else if Walk(linked, parents[k], n) == Some(k) {
      WalkAfterLink(parents, key, parent, parents[k], n, k);
      var m: nat :| Walk(linked, parent, m) == Some(k);
      WalkAvoids(parents, key, parent, parent, m);
      assert Reaches(parents, parent, k);
      ReachesStep(parents, k, key);
      ReachesTrans(parents, parent, k, key);
    }
  }

  lemma LinkClosesCycle(parents: map<Key, Key>, key: Key, parent: Key)
    requires Reaches(parents, parent, key)
    ensures !Acyclic(parents[key := parent])
  {
    var linked := parents[key := parent];
    var n: nat :| Walk(parents, parent, n) == Some(key);
    var m := FirstArrival(parents, key, parent, parent, n);
    assert Reaches(linked, linked[key], key);
  }

  /** The walk to the linked key does not use the link before it arrives. */
  lemma {:induction false} FirstArrival(parents: map<Key, Key>, key: Key, parent: Key, a: Key, n: nat) returns (m: nat)
    requires Walk(parents, a, n) == Some(key)
    ensures Walk(parents[key := parent], a, m) == Some(key)
    decreases n
  {
    if a == key {
      m := 0;
    } else {
      var rest := FirstArrival(parents, key, parent, parents[a], n - 1);
      m := rest + 1;
    }
  }

  // ----- chains -----

  /** The linked keys at or above `key`: what a walk has left to visit. */
  ghost function Ahead(parents: map<Key, Key>, key: Key): set<Key> {
    set k | k in parents && Reaches(parents, key, k)
  }

  lemma WalkShrinks(parents: map<Key, Key>, key: Key)
    requires Acyclic(parents) && key in parents
    ensures Ahead(parents, parents[key]) < Ahead(parents, key)
  {
    ReachesStep(parents, key, key);
    forall k | k in Ahead(parents, parents[key]) ensures k in Ahead(parents, key) {
      ReachesStep(parents, key, k);
    }
    assert key in Ahead(parents, key) && key !in Ahead(parents, parents[key]);
  }

  /** The chain from a key to its root, nearest first. */
  ghost function Chain(parents: map<Key, Key>, key: Key): (chain: seq<Key>)
    requires Acyclic(parents)
    ensures chain != [] && chain[0] == key
    decreases Ahead(parents, key)
  {
    if key in parents then
      WalkShrinks(parents, key);
      [key] + Chain(parents, parents[key])
    else [key]
  }

  ghost function ChainOf(parents: map<Key, Key>, key: Option<Key>): seq<Key>
    requires Acyclic(parents)
  {
    if key.Some? then Chain(parents, key.value) else []
  }

  /** The chain lists exactly the key and its ancestors, each at its distance. */
  lemma {:induction false} ChainWalks(parents: map<Key, Key>, key: Key, n: nat)
    requires Acyclic(parents)
    ensures Walk(parents, key, n) == (if n < |Chain(parents, key)| then Some(Chain(parents, key)[n]) else None)
    decreases n
  {
    if key in parents && n > 0 {
      ChainWalks(parents, parents[key], n - 1);
    }
  }

  lemma ChainReaches(parents: map<Key, Key>, key: Key, ancestor: Key)
    requires Acyclic(parents)
    ensures ancestor in Chain(parents, key) <==> Reaches(parents, key, ancestor)
  {
    if ancestor in Chain(parents, key) {
      var n: nat :| n < |Chain(parents, key)| && Chain(parents, key)[n] == ancestor;
      ChainWalks(parents, key, n);
    }
    if n: nat :| Walk(parents, key, n) == Some(ancestor) {
      ChainWalks(parents, key, n);
    }
  }

  // ----- the relation in place -----

  /** The module's parent map. */
  class Relation {
    var parents: map<Key, Key>

    ghost predicate Valid()
      reads this
    {
      Acyclic(parents)
    }

    constructor ()
      ensures Valid() && parents == map[]
    {
      parents := map[];
    }

    /** Cycle-checked write: throws, changing nothing, exactly when the key is on the parent's chain. */
    method LinkScopeParent(key: Key, parent: Key) returns (threw: bool)
      requires Valid()
      modifies this
      ensures Valid()
      ensures threw <==> Reaches(old(parents), parent, key)
      ensures parents == if threw then old(parents) else old(parents)[key := parent]
    {
      LinkKeepsAcyclic(parents, key, parent);
      var cursor := Some(parent);
      while cursor.Some?
        invariant cursor.Some? ==> (Reaches(parents, parent, key) <==> Reaches(parents, cursor.value, key))
        invariant cursor.None? ==> !Reaches(parents, parent, key)
        invariant parents == old(parents)
        decreases cursor.Some?, if cursor.Some? then Ahead(parents, cursor.value) else {}
      {
        if cursor.value == key {
          assert Walk(parents, key, 0) == Some(key);
          return true;
        }
        if cursor.value in parents {
          ReachesStep(parents, cursor.value, key);
          WalkShrinks(parents, cursor.value);
          cursor := Some(parents[cursor.value]);
        } else {
          RootReaches(parents, cursor.value, key);
          cursor := None;
        }
      }
      parents := parents[key := parent];
      return false;
    }

    /** Bind once: a bound key throws; re-linking is left to the holder of the binding. */
    method BindScopeParent(key: Key, parent: Key) returns (threw: bool)
      requires Valid()
      modifies this
      ensures Valid()
      ensures threw <==> key in old(parents) || Reaches(old(parents), parent, key)
      ensures parents == if threw then old(parents) else old(parents)[key := parent]
    {
      if key in parents { return true; }
      threw := LinkScopeParent(key, parent);
    }

    method ScopeChainOf(key: Option<Key>) returns (chain: seq<Key>)
      requires Valid()
      ensures chain == ChainOf(parents, key)
    {
      chain := [];
      var cursor := key;
      while cursor.Some?
        invariant chain + ChainOf(parents, cursor) == ChainOf(parents, key)
        decreases cursor.Some?, if cursor.Some? then Ahead(parents, cursor.value) else {}
      {
        chain := chain + [cursor.value];
        if cursor.value in parents {
          WalkShrinks(parents, cursor.value);
          cursor := Some(parents[cursor.value]);
        } else {
          cursor := None;
        }
      }
    }

    /**
     * Whether a listener is admitted: untagged listeners always, tagged ones exactly when their tag
     * is on the dispatch key's chain.
     */
    method Admits(baseAdmits: bool, tag: Option<Key>, key: Option<Key>) returns (admitted: bool)
      requires Valid()
      ensures admitted <==> baseAdmits && (tag.None? || tag.value in ChainOf(parents, key))
    {
      if !baseAdmits { return false; }
      if tag.None? { return true; }
      var cursor := key;
      while cursor.Some?
        invariant tag.value in ChainOf(parents, key) <==> tag.value in ChainOf(parents, cursor)
        decreases cursor.Some?, if cursor.Some? then Ahead(parents, cursor.value) else {}
      {
        if cursor.value == tag.value { return true; }
        if cursor.value in parents {
          WalkShrinks(parents, cursor.value);
          cursor := Some(parents[cursor.value]);
        } else {
          cursor := None;
        }
      }
      return false;
    }
  }

  lemma RootReaches(parents: map<Key, Key>, key: Key, ancestor: Key)
    requires key !in parents
    ensures Reaches(parents, key, ancestor) <==> key == ancestor
  {
    assert Walk(parents, key, 0) == Some(key);
    if n: nat :| Walk(parents, key, n) == Some(ancestor) {
      assert n == 0;
    }
  }

  /**
   * Events flow up and registrations down the same chain: a tag is admitted for a key exactly when
   * the key inherits the tag's layer.
   */
  lemma AdmissionIsInheritance(parents: map<Key, Key>, tag: Key, key: Key)
    requires Acyclic(parents)
    ensures tag in ChainOf(parents, Some(key)) <==> Reaches(parents, key, tag)
  {
    ChainReaches(parents, key, tag);
  }
}

/**
 * The query cache as the hooks see it: a map from keys to a freshness status, with the
 * two operations the hooks call. Both select entries by prefix: an entry is affected when
 * its key extends the key passed in. This is the model's definition of those operations;
 * fetching, timers, observers and garbage collection are not modelled.
 */
module QueryCache {
  import opened QueryKeys

  datatype Status = Fresh | Stale

  type Entries = map<Key, Status>

  /** An entry is selected by a filter key when its own key extends the filter key. */
  predicate Matches(key: Key, prefix: Key) {
    prefix <= key
  }

  /** `invalidateQueries`: every selected entry becomes stale; nothing is added or dropped. */
  function Invalidated(entries: Entries, prefix: Key): (after: Entries)
    ensures after.Keys == entries.Keys
    ensures forall k :: k in after && Matches(k, prefix) ==> after[k] == Stale
    ensures forall k :: k in after && !Matches(k, prefix) ==> after[k] == entries[k]
  {
    map k | k in entries :: if Matches(k, prefix) then Stale else entries[k]
  }

  /** `removeQueries`: every selected entry is dropped; the others are kept as they are. */
  function Removed(entries: Entries, prefix: Key): (after: Entries)
    ensures forall k :: k in after <==> k in entries && !Matches(k, prefix)
    ensures forall k :: k in after ==> after[k] == entries[k]
  {
    map k | k in entries && !Matches(k, prefix) :: entries[k]
  }

  /** Invalidating twice is invalidating once, and the order of two invalidations does not matter. */
  lemma InvalidateIdempotentAndCommutative(entries: Entries, p: Key, q: Key)
    ensures Invalidated(Invalidated(entries, p), p) == Invalidated(entries, p)
    ensures Invalidated(Invalidated(entries, p), q) == Invalidated(Invalidated(entries, q), p)
  {
  }

  /**
   * On the keys of the taxonomy, invalidating the key of `p` marks stale exactly the
   * entries `p` covers, and removing it drops exactly those.
   */
  lemma OperationsFollowHierarchy(entries: Entries, p: KeyName, n: KeyName)
    requires KeyOf(n) in entries
    ensures Invalidated(entries, KeyOf(p))[KeyOf(n)] ==
              if Covers(p, n) then Stale else entries[KeyOf(n)]
    ensures KeyOf(n) in Removed(entries, KeyOf(p)) <==> !Covers(p, n)
  {
    PrefixIffCovers(p, n);
  }

  /**
   * Invalidating a resource's `all` key marks every cached key of that resource stale and
   * leaves the entries of the other resources as they were.
   */
  lemma InvalidateAllOfPosts(entries: Entries, n: KeyName)
    requires KeyOf(n) in entries
    ensures Namespace(n) == "posts" ==> Invalidated(entries, PostsAll())[KeyOf(n)] == Stale
    ensures Namespace(n) != "posts" ==> Invalidated(entries, PostsAll())[KeyOf(n)] == entries[KeyOf(n)]
  {
    OperationsFollowHierarchy(entries, PostsAllKey, n);
  }

  /** The cache object the hooks share. */
  class Cache {
    var entries: Entries

    constructor ()
      ensures entries == map[]
    {
      entries := map[];
    }

    method InvalidateQueries(prefix: Key)
      modifies this
      ensures entries == Invalidated(old(entries), prefix)
    {
      entries := Invalidated(entries, prefix);
    }

    method RemoveQueries(prefix: Key)
      modifies this
      ensures entries == Removed(old(entries), prefix)
    {
      entries := Removed(entries, prefix);
    }
  }
}

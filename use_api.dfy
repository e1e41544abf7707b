/**
 * The data hooks (hooks/useApi.ts): which key and API function each query hook uses and
 * when it is enabled; which cache entries each mutation invalidates or removes when it
 * succeeds; and which message it writes to the store's error slot when it fails.
 */
module UseApi {
  import opened Wrappers
  import opened JsValues
  import opened QueryKeys
  import opened QueryCache
  import Api
  import Store

  // ---- query hooks ----

  /** A call of one of the three query hooks, with its arguments. */
  datatype QueryHook =
    | UseUserProfile
    | UsePosts(filters: Option<map<string, Json>>)
    | UsePost(id: string)

  /** The key a query hook reads; an absent filter object is replaced by `{}`. */
  function QueryKey(h: QueryHook): (k: Key)
    ensures h.UseUserProfile? ==> k == UsersProfile()
    ensures h.UsePosts? ==> k == PostsList(h.filters.GetOr(map[]))
    ensures h.UsePost? ==> k == PostsDetail(h.id)
  {
    match h
    case UseUserProfile => UsersProfile()
    case UsePosts(filters) => PostsList(filters.GetOr(map[]))
    case UsePost(id) => PostsDetail(id)
  }

  /** Whether the query runs: only a single-post query with an empty id is disabled. */
  function Enabled(h: QueryHook): (enabled: bool)
    ensures enabled <==> !(h.UsePost? && h.id == "")
  {
    match h
    case UsePost(id) => id != ""
    case _ => true
  }

  /** The API function a query hook fetches with. */
  function QueryFn(h: QueryHook): (f: Api.ApiFunction)
    ensures Api.CallOf(f).Get?
    ensures h.UseUserProfile? ==> f == Api.GetProfile
    ensures h.UsePosts? ==> f == Api.GetAllPosts
    ensures h.UsePost? ==> f == Api.GetPostById(h.id)
  {
    match h
    case UseUserProfile => Api.GetProfile
    case UsePosts(_) => Api.GetAllPosts
    case UsePost(id) => Api.GetPostById(id)
  }

  /**
   * The posts query is keyed by its filters but fetches the same thing whatever they are;
   * no filters and empty filters share one key.
   */
  lemma UsePostsIgnoresFilters(f: Option<map<string, Json>>, g: Option<map<string, Json>>)
    ensures QueryFn(UsePosts(f)) == QueryFn(UsePosts(g)) == Api.GetAllPosts
    ensures QueryKey(UsePosts(f)) == QueryKey(UsePosts(g)) <==> f.GetOr(map[]) == g.GetOr(map[])
    ensures QueryKey(UsePosts(None)) == QueryKey(UsePosts(Some(map[])))
  {
  }

  /**
   * What a query hook's fetch function does: the GET request of its API function. It has
   * no access to the store, so a query never writes the error slot.
   */
  method RunQueryFn(h: QueryHook, base: string, outcome: Api.Transport)
    returns (sent: Api.FetchRequest, result: Result<Json, string>)
    ensures sent.init.verb == Api.GET && sent.init.body.None?
    ensures sent.url == base + Api.CallOf(QueryFn(h)).endpoint
    ensures sent.init.headers == Api.JsonHeaders
    ensures h.UsePosts? ==> sent.url == base + "/posts"
    ensures outcome.Rejected? ==> result == Failure(outcome.message)
    ensures outcome.Delivered? && !outcome.response.ok ==>
              result == Failure(Api.HttpErrorMessage(outcome.response))
    ensures outcome.Delivered? && outcome.response.ok && outcome.response.body.Unparseable? ==>
              result == Failure(outcome.response.body.message)
    ensures outcome.Delivered? && outcome.response.ok && outcome.response.body.Parsed? ==>
              result == Success(outcome.response.body.value)
  {
    sent, result := Api.Call(base, Api.CallOf(QueryFn(h)), None, outcome);
  }

  // ---- mutation hooks ----

  /** A call of one of the four mutation hooks, with the variables passed to `mutate`. */
  datatype Mutation =
    | UseUpdateUserProfile(profile: Json)
    | UseCreatePost(post: Json)
    | UseUpdatePost(id: string, data: Json)
    | UseDeletePost(id: string)

  /** The API function a mutation calls. */
  function MutationFn(m: Mutation): (f: Api.ApiFunction)
    ensures !Api.CallOf(f).Get?
    ensures m.UseUpdateUserProfile? ==> f == Api.UpdateProfile(m.profile)
    ensures m.UseCreatePost? ==> f == Api.CreatePost(m.post)
    ensures m.UseUpdatePost? ==> f == Api.UpdatePost(m.id, m.data)
    ensures m.UseDeletePost? ==> f == Api.DeletePost(m.id)
  {
    match m
    case UseUpdateUserProfile(profile) => Api.UpdateProfile(profile)
    case UseCreatePost(post) => Api.CreatePost(post)
    case UseUpdatePost(id, data) => Api.UpdatePost(id, data)
    case UseDeletePost(id) => Api.DeletePost(id)
  }

  /** One call a success handler makes on the cache. */
  datatype CacheOp = Invalidate(prefix: Key) | Remove(prefix: Key)

  /** The cache calls of each success handler, in the order they are made. */
  function OnSuccessOps(m: Mutation): (ops: seq<CacheOp>)
    ensures 1 <= |ops| <= 2
    ensures |ops| == 1 <==> m.UseUpdateUserProfile? || m.UseCreatePost?
    ensures ops[|ops| - 1] == Invalidate(if m.UseUpdateUserProfile? then UsersProfile() else PostsLists())
    ensures forall i :: 0 <= i < |ops| && ops[i].Remove? ==> m.UseDeletePost? && ops[i].prefix == PostsDetail(m.id)
    ensures m.UseUpdatePost? ==> ops[0] == Invalidate(PostsDetail(m.id))
    ensures m.UseDeletePost? ==> ops[0] == Remove(PostsDetail(m.id))
  {
    match m
    case UseUpdateUserProfile(_) => [Invalidate(UsersProfile())]
    case UseCreatePost(_) => [Invalidate(PostsLists())]
    case UseUpdatePost(id, _) => [Invalidate(PostsDetail(id)), Invalidate(PostsLists())]
    case UseDeletePost(id) => [Remove(PostsDetail(id)), Invalidate(PostsLists())]
  }

  function ApplyOp(entries: Entries, op: CacheOp): Entries {
    match op
    case Invalidate(prefix) => Invalidated(entries, prefix)
    case Remove(prefix) => Removed(entries, prefix)
  }

  /** The cache after a sequence of calls; calls never add entries. */
  function ApplyOps(entries: Entries, ops: seq<CacheOp>): (after: Entries)
    ensures after.Keys <= entries.Keys
    decreases |ops|
  {
    if ops == [] then entries else ApplyOps(ApplyOp(entries, ops[0]), ops[1..])
  }

  /** What a successful mutation does to one cached entry. */
  datatype Effect = Untouched | MarkedStale | Evicted

  /**
   * The dependency rule, stated on constructor calls: a profile update refreshes the
   * profile; creating a post refreshes every list; updating a post refreshes that post
   * and every list; deleting a post evicts that post and refreshes every list.
   * (`users.byId('profile')` shares the profile's key.)
   */
  function Dependency(m: Mutation, n: KeyName): Effect {
    match m
    case UseUpdateUserProfile(_) =>
      if n == UsersProfileKey || n == UsersByIdKey("profile") then MarkedStale else Untouched
    case UseCreatePost(_) =>
      if n.PostsListsKey? || n.PostsListKey? then MarkedStale else Untouched
    case UseUpdatePost(id, _) =>
      if n == PostsDetailKey(id) || n.PostsListsKey? || n.PostsListKey? then MarkedStale else Untouched
    case UseDeletePost(id) =>
      if n == PostsDetailKey(id) then Evicted
      else if n.PostsListsKey? || n.PostsListKey? then MarkedStale else Untouched
  }

  /** Applying one or two calls is applying them in turn. */
  lemma ApplyShortSequences(entries: Entries, a: CacheOp, b: CacheOp)
    ensures ApplyOps(entries, [a]) == ApplyOp(entries, a)
    ensures ApplyOps(entries, [a, b]) == ApplyOp(ApplyOp(entries, a), b)
  {
    assert [a][1..] == [];
    assert [a, b][1..] == [b];
    assert ApplyOps(ApplyOp(entries, a), [b]) == ApplyOp(ApplyOp(entries, a), b) by {
      assert [b][1..] == [];
    }
  }

  /** What the dependency rule declares, as a condition on the entry afterwards. */
  predicate Obeys(effect: Effect, entries: Entries, after: Entries, k: Key)
    requires k in entries
  {
    match effect
    case Untouched => k in after && after[k] == entries[k]
    case MarkedStale => k in after && after[k] == Stale
    case Evicted => k !in after
  }

  /** Updating a post refreshes that post and every list, and nothing else. */
  lemma UpdatePostFollowsDependency(id: string, data: Json, entries: Entries, n: KeyName)
    requires KeyOf(n) in entries
    ensures Obeys(Dependency(UseUpdatePost(id, data), n), entries,
                  Invalidated(Invalidated(entries, PostsDetail(id)), PostsLists()), KeyOf(n))
  {
    var mid := Invalidated(entries, PostsDetail(id));
    OperationsFollowHierarchy(entries, PostsDetailKey(id), n);
    OperationsFollowHierarchy(mid, PostsListsKey, n);
  }

  /** Deleting a post evicts that post, refreshes every list, and keeps every other entry. */
  lemma DeletePostFollowsDependency(id: string, entries: Entries, n: KeyName)
    requires KeyOf(n) in entries
    ensures Obeys(Dependency(UseDeletePost(id), n), entries,
                  Invalidated(Removed(entries, PostsDetail(id)), PostsLists()), KeyOf(n))
  {
    var k, mid := KeyOf(n), Removed(entries, PostsDetail(id));
    PrefixIffCovers(PostsDetailKey(id), n);
    PrefixIffCovers(PostsListsKey, n);
    if n == PostsDetailKey(id) {
      assert k !in mid;
    } else {
      assert k in mid && mid[k] == entries[k];
    }
  }

  /**
   * Each success handler has exactly the effect its dependency rule declares on every
   * cached key of the taxonomy.
   */
  lemma OnSuccessFollowsDependency(m: Mutation, entries: Entries, n: KeyName)
    requires KeyOf(n) in entries
    ensures Obeys(Dependency(m, n), entries, ApplyOps(entries, OnSuccessOps(m)), KeyOf(n))
  {
    var ops := OnSuccessOps(m);
    ApplyShortSequences(entries, ops[0], ops[|ops| - 1]);
    match m
    case UseUpdateUserProfile(_) =>
      OperationsFollowHierarchy(entries, UsersProfileKey, n);
    case UseCreatePost(_) =>
      OperationsFollowHierarchy(entries, PostsListsKey, n);
    case UseUpdatePost(id, data) =>
      UpdatePostFollowsDependency(id, data, entries, n);
    case UseDeletePost(id) =>
      DeletePostFollowsDependency(id, entries, n);
  }

  /** The success handler: the cache calls of `OnSuccessOps`, made one after the other. */
  method OnSuccess(m: Mutation, cache: Cache)
    modifies cache
    ensures cache.entries == ApplyOps(old(cache.entries), OnSuccessOps(m))
  {
    ghost var ops := OnSuccessOps(m);
    ApplyShortSequences(cache.entries, ops[0], ops[|ops| - 1]);
    match m
    case UseUpdateUserProfile(_) =>
      cache.InvalidateQueries(UsersProfile());
    case UseCreatePost(_) =>
      cache.InvalidateQueries(PostsLists());
    case UseUpdatePost(id, _) =>
      cache.InvalidateQueries(PostsDetail(id));
      cache.InvalidateQueries(PostsLists());
    case UseDeletePost(id) =>
      cache.RemoveQueries(PostsDetail(id));
      cache.InvalidateQueries(PostsLists());
  }

  /** A thrown value: an `Error` object with its message, or anything else. */
  datatype Thrown = ErrorObject(message: string) | NonError

  /** The message a mutation writes when what it caught is not an `Error`. */
  function FallbackMessage(m: Mutation): (message: string)
    ensures |message| > 10 && message[..10] == "Failed to "
    ensures m.UseUpdateUserProfile? ==> message == "Failed to update user profile"
    ensures m.UseCreatePost? ==> message == "Failed to create post"
    ensures m.UseUpdatePost? ==> message == "Failed to update post"
    ensures m.UseDeletePost? ==> message == "Failed to delete post"
  {
    match m
    case UseUpdateUserProfile(_) => "Failed to update user profile"
    case UseCreatePost(_) => "Failed to create post"
    case UseUpdatePost(_, _) => "Failed to update post"
    case UseDeletePost(_) => "Failed to delete post"
  }

  /** The message a failed mutation writes to the error slot. */
  function ErrorMessage(m: Mutation, e: Thrown): (message: string)
    ensures e.ErrorObject? ==> message == e.message
    ensures e.NonError? ==> message == FallbackMessage(m) && message != ""
  {
    match e
    case ErrorObject(msg) => msg
    case NonError => FallbackMessage(m)
  }

  /**
   * The fallback depends on the hook alone: two mutations get the same fallback
   * exactly when they come from the same hook, whatever their arguments.
   */
  lemma FallbacksIdentifyHook(m1: Mutation, m2: Mutation)
    ensures FallbackMessage(m1) == FallbackMessage(m2) <==>
              m1.UseUpdateUserProfile? == m2.UseUpdateUserProfile? &&
              m1.UseCreatePost? == m2.UseCreatePost? &&
              m1.UseUpdatePost? == m2.UseUpdatePost? &&
              m1.UseDeletePost? == m2.UseDeletePost?
  {
  }

  /** The error handler: writes the message to the store's error slot and nothing else. */
  method OnError(m: Mutation, e: Thrown, store: Store.AppStore)
    modifies store
    ensures store.State() == Store.Step(old(store.State()), Store.SetError(Some(ErrorMessage(m, e))))
  {
    store.SetError(Some(ErrorMessage(m, e)));
  }

  /**
   * One settled mutation: the API call, then on success the cache calls and on failure
   * the error message. The client only ever raises `Error` objects, so the message
   * written is always the error's own, never the fallback.
   */
  method Mutate(m: Mutation, base: string, outcome: Api.Transport, cache: Cache, store: Store.AppStore)
    returns (sent: Api.FetchRequest, result: Result<Json, string>)
    modifies cache, store
    ensures sent.url == base + Api.CallOf(MutationFn(m)).endpoint
    ensures sent.init == Api.FetchOptionsAsWritten(Api.CallOptions(Api.CallOf(MutationFn(m))))
    ensures sent.init.headers == Api.JsonHeaders
    ensures outcome.Rejected? ==> result == Failure(outcome.message)
    ensures outcome.Delivered? && outcome.response.ok && outcome.response.body.Unparseable? ==>
              result == Failure(outcome.response.body.message)
    ensures outcome.Delivered? && outcome.response.ok && outcome.response.body.Parsed? ==>
              result == Success(outcome.response.body.value)
    ensures result.Success? ==>
              cache.entries == ApplyOps(old(cache.entries), OnSuccessOps(m)) &&
              store.State() == old(store.State())
    ensures result.Failure? ==>
              cache.entries == old(cache.entries) &&
              store.State() == Store.Step(old(store.State()), Store.SetError(Some(result.error)))
    ensures outcome.Delivered? && !outcome.response.ok ==>
              result == Failure(Api.HttpErrorMessage(outcome.response))
  {
    sent, result := Api.Call(base, Api.CallOf(MutationFn(m)), None, outcome);
    if result.Success? {
      OnSuccess(m, cache);
    } else {
      OnError(m, ErrorObject(result.error), store);
    }
  }
}
